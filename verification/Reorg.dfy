/** Reorg detection by one hash probe at the highest stored block, and the rollback it causes. */
module Reorg {
  import opened Model
  import opened Chain
  import opened Drive
  import opened Database

  /** `h` is the highest stored block of the chain. */
  predicate IsTip(blocks: map<BlockAt, BlockMeta>, c: nat, h: nat) {
    BlockAt(c, h) in blocks && forall k :: k in blocks && k.chain == c ==> k.height <= h
  }

  /** The fork a tip at `h` is rolled back to. */
  function ForkOf(h: nat, confirmations: nat): nat {
    if h > confirmations then h - confirmations else 0
  }

  /** The highest stored block, if the chain has any. */
  method MaxHeight(blocks: map<BlockAt, BlockMeta>, c: nat) returns (tip: Option<nat>)
    ensures tip.Some? ==> IsTip(blocks, c, tip.value)
    ensures tip.None? ==> forall k :: k in blocks ==> k.chain != c
  {
    tip := None;
    var scan := blocks.Keys;
    while scan != {}
      invariant scan <= blocks.Keys
      invariant tip.Some? ==> BlockAt(c, tip.value) in blocks
      invariant forall k :: k in blocks.Keys - scan && k.chain == c ==> tip.Some? && k.height <= tip.value
      decreases scan
    {
      var k :| k in scan;
      scan := scan - {k};
      if k.chain == c && (tip.None? || k.height > tip.value) {
        assert k == BlockAt(c, k.height);
        tip := Some(k.height);
      }
    }
  }

  /** The probe that does not match: the stored tip and the hash the source reports for it. */
  predicate Mismatch(db: Db, c: nat, tip: nat, reported: Option<Hash>) {
    IsTip(db.blocks, c, tip) && reported.Some? && reported.value != db.blocks[BlockAt(c, tip)].hash
  }

  /** The database after a check, and where to re-index from when it rolled back. `reported` is
      the source's hash for the stored tip, if it knows one. */
  ghost function Checked(
    db: Db, c: nat, confirmations: nat, supportsReorg: bool, reported: Option<Hash>, tables: set<string>): (Db, Option<nat>)
  {
    if exists tip :: supportsReorg && Mismatch(db, c, tip, reported) then
      var tip :| Mismatch(db, c, tip, reported);
      var from := ForkOf(tip, confirmations) + 1;
      (RolledBack(db, c, from, tables), Some(from))
    else (db, None)
  }

  /** Probes the highest stored block and rolls back a confirmation-deep window on a mismatch.
      `blockHash` answers for the source. */
  method Check(store: Store, c: nat, confirmations: nat, supportsReorg: bool, blockHash: nat -> Option<Hash>, tables: seq<string>)
    returns (reindex: Option<nat>, ghost reported: Option<Hash>)
    requires store.Valid()
    modifies store
    ensures store.Valid()
    ensures forall tip :: IsTip(old(store.blocks), c, tip) ==> reported == blockHash(tip)
    ensures (store.Value(), reindex) == Checked(old(store.Value()), c, confirmations, supportsReorg, reported, Named(tables))
    ensures !supportsReorg ==> reindex.None?
    ensures reindex.None? ==> store.Value() == old(store.Value())
    ensures forall tip: nat :: supportsReorg && IsTip(old(store.blocks), c, tip) ==>
              var stored := old(store.blocks)[BlockAt(c, tip)];
              reindex == if blockHash(tip) in {None, Some(stored.hash)} then None
                         else Some(if tip > confirmations then tip - confirmations + 1 else 1)
  {
    reindex, reported := None, None;
    var tip := MaxHeight(store.blocks, c);
    if tip.Some? {
      reported := blockHash(tip.value);
    }
    if !supportsReorg {
      return;
    }
    if tip.None? {
      return;
    }
    var stored := store.blocks[BlockAt(c, tip.value)];
    var canon := blockHash(tip.value);
    if canon.None? || canon.value == stored.hash {
      return;
    }
    assert Mismatch(store.Value(), c, tip.value, reported);
    assert forall t :: Mismatch(store.Value(), c, t, reported) ==> t == tip.value;
    var from := ForkOf(tip.value, confirmations) + 1;
    store.RollbackTo(c, from, tables);
    reindex := Some(from);
  }

  // ---------------------------------------------------------------- what a rollback is

  /** Every stored receipt has its transaction stored. */
  ghost predicate NoOrphans(typed: map<RowKey, EventRow>) {
    forall k :: k in typed && typed[k].table == RECEIPTS ==> OfTx(TRANSACTIONS, typed[k].chain, typed[k].txId) in typed
  }

  /** A rollback to below `from`, column by column: raw records and blocks of the chain at or above it go;
      so do rows of the listed tables, and the receipts of transactions that went; the cursor, if there
      is one, is set to the height below; the queue and the other chains stay. */
  lemma RollbackMeans(byTx: Schema, db: Db, c: nat, from: nat, tables: set<string>, db': Db)
    requires SchemaOk(byTx) && Keyed(byTx, db.typed) && db' == RolledBack(db, c, from, tables)
    ensures forall k :: k in db'.raw <==> k in db.raw && (k.chain != c || k.height < from)
    ensures forall k :: k in db'.blocks <==> k in db.blocks && (k.chain != c || k.height < from)
    ensures forall k :: k in db.typed ==>
              var x := db.typed[k];
              var tx := OfTx(TRANSACTIONS, x.chain, x.txId);
              k in db'.typed <==>
              && (x.chain != c || x.height < from || x.table !in tables)
              && (x.table != RECEIPTS || tx !in db.typed || tx in db'.typed)
    ensures (forall k :: k in db'.raw ==> db'.raw[k] == db.raw[k]) && (forall k :: k in db'.blocks ==> db'.blocks[k] == db.blocks[k])
    ensures forall k :: k in db'.typed ==> k in db.typed && db'.typed[k] == db.typed[k]
    ensures db'.queue == db.queue && db'.cursors.Keys == db.cursors.Keys
    ensures c in db.cursors ==> db'.cursors[c] == Checkpoint(if from == 0 then 0 else from - 1, [])
    ensures forall d :: d in db.cursors && d != c ==> db'.cursors[d] == db.cursors[d]
    ensures NoOrphans(db.typed) ==> NoOrphans(db'.typed)
  {
    forall k | k in db.typed && OfTx(TRANSACTIONS, db.typed[k].chain, db.typed[k].txId) in db.typed
      ensures var x := db.typed[k];
              var tx := OfTx(TRANSACTIONS, x.chain, x.txId);
              tx !in db'.typed <==> x.chain == c && TRANSACTIONS in tables && db.typed[tx].height >= from
    {
      var tx := OfTx(TRANSACTIONS, db.typed[k].chain, db.typed[k].txId);
      assert KeyIn(byTx, db.typed[tx]) == tx;
    }
  }

  // ---------------------------------------------------------------- what a rollback keeps

  lemma AuxBelowForkStays(
    byTx: Schema, db: Db, w: World, c: nat, from: nat, tables: set<string>, h: nat, x: EventRow)
    requires WellFormed(w) && SchemaOk(byTx) && Canonical(byTx, db, w) && h < from && x in w(c, h).aux
    ensures !Dropped(db.typed, c, from, tables, x)
  {
  }

  /** A rollback leaves every height below it as committed as it was. */
  lemma RollbackKeepsCover(byTx: Schema, db: Db, w: World, c: nat, from: nat, tables: set<string>, h: nat)
    requires WellFormed(w) && SchemaOk(byTx) && Canonical(byTx, db, w) && h < from && Covers(byTx, db, w, c, h)
    ensures Covers(byTx, RolledBack(db, c, from, tables), w, c, h)
  {
    assert BlockOk(w(c, h), c, h);
    forall x | x in w(c, h).aux
      ensures !Dropped(db.typed, c, from, tables, x)
    {
      AuxBelowForkStays(byTx, db, w, c, from, tables, h, x);
    }
  }

  lemma RollbackKeepsCanonical(byTx: Schema, db: Db, w: World, c: nat, from: nat, tables: set<string>)
    requires Canonical(byTx, db, w)
    ensures Canonical(byTx, RolledBack(db, c, from, tables), w)
  {
  }

  lemma RollbackKeepsAllCovered(byTx: Schema, db: Db, w: World, c: nat, from: nat, tables: set<string>, lo: nat, hi: int)
    requires WellFormed(w) && SchemaOk(byTx) && Canonical(byTx, db, w)
    requires AllCovered(byTx, db, w, c, lo, hi) && hi < from
    ensures AllCovered(byTx, RolledBack(db, c, from, tables), w, c, lo, hi)
  {
    forall h: nat | lo <= h <= hi
      ensures Covers(byTx, RolledBack(db, c, from, tables), w, c, h)
    {
      RollbackKeepsCover(byTx, db, w, c, from, tables, h);
    }
  }

  // ---------------------------------------------------------------- hash chains

  /** The block above `h` names its hash as its parent's. */
  ghost predicate LinkedAt(w: World, c: nat, h: nat) {
    w(c, h + 1).meta.parentHash == w(c, h).meta.hash
  }

  ghost predicate Linked(w: World, c: nat) {
    forall h: nat :: LinkedAt(w, c, h)
  }

  /** A block hash commits to the whole block, so equal hashes mean equal blocks. */
  ghost predicate HashesBind(w: World, v: World, c: nat) {
    forall h: nat :: w(c, h).meta.hash == v(c, h).meta.hash ==> w(c, h) == v(c, h)
  }

  /** Two hash chains that agree at a height agree at every height below it. */
  lemma {:induction false} AgreementGoesDown(w: World, v: World, c: nat, top: nat, h: nat)
    requires Linked(w, c) && Linked(v, c) && HashesBind(w, v, c)
    requires w(c, top).meta.hash == v(c, top).meta.hash && h <= top
    ensures w(c, h) == v(c, h)
    decreases top
  {
    if h < top {
      var below: nat := top - 1;
      assert w(c, top) == v(c, top);
      assert LinkedAt(w, c, below) && LinkedAt(v, c, below);
      AgreementGoesDown(w, v, c, below, h);
    }
  }

  /** Every stored block, raw record and listed typed row of the chain is the world's. */
  ghost predicate ChainCanonical(db: Db, w: World, c: nat, tables: set<string>) {
    && (forall k :: k in db.blocks && k.chain == c ==> db.blocks[k] == w(c, k.height).meta)
    && (forall k :: k in db.raw && k.chain == c ==> db.raw[k].blockHash == w(c, k.height).meta.hash && db.raw[k] in w(c, k.height).logs)
    && (forall k :: k in db.typed && db.typed[k].chain == c && db.typed[k].table in tables ==>
          db.typed[k].blockHash == w(c, db.typed[k].height).meta.hash)
  }

  /** The chain's rows were indexed from `w`: stored blocks and raw records are its own, and every
      raw record and typed row has its block stored and carries its hash. */
  ghost predicate IndexedFrom(db: Db, w: World, c: nat, tables: set<string>) {
    && (forall k :: k in db.blocks && k.chain == c ==> db.blocks[k] == w(c, k.height).meta)
    && (forall k :: k in db.raw && k.chain == c ==>
          && db.raw[k] in w(c, k.height).logs && db.raw[k].blockHash == w(c, k.height).meta.hash
          && BlockAt(c, k.height) in db.blocks)
    && (forall k :: k in db.typed && db.typed[k].chain == c && db.typed[k].table in tables ==>
          && db.typed[k].blockHash == w(c, db.typed[k].height).meta.hash
          && BlockAt(c, db.typed[k].height) in db.blocks)
  }

  /** Rows indexed from `w` are canonical for `v` once the two agree wherever a block is stored. */
  lemma AgreementMakesCanonical(db: Db, w: World, v: World, c: nat, tables: set<string>)
    requires IndexedFrom(db, w, c, tables)
    requires forall k :: k in db.blocks && k.chain == c ==> w(c, k.height) == v(c, k.height)
    ensures ChainCanonical(db, v, c, tables)
  {
  }

  /** With the canonical tip hash known, the single probe is silent exactly when every stored
      block is canonical, and then so is every row. */
  lemma ProbeDecides(
    db: Db, w: World, v: World, c: nat, confirmations: nat, tables: set<string>, tip: nat, db': Db, reindex: Option<nat>)
    requires Linked(w, c) && Linked(v, c) && HashesBind(w, v, c) && IndexedFrom(db, w, c, tables)
    requires IsTip(db.blocks, c, tip)
    requires (db', reindex) == Checked(db, c, confirmations, true, Some(v(c, tip).meta.hash), tables)
    ensures reindex.None? <==> forall k :: k in db.blocks && k.chain == c ==> db.blocks[k] == v(c, k.height).meta
    ensures reindex.None? ==> ChainCanonical(db', v, c, tables) && db' == db
  {
    var reported := Some(v(c, tip).meta.hash);
    var at := BlockAt(c, tip);
    assert forall t :: Mismatch(db, c, t, reported) ==> t == tip;
    if reindex.None? {
      assert !Mismatch(db, c, tip, reported);
      forall k | k in db.blocks && k.chain == c
        ensures w(c, k.height) == v(c, k.height)
      {
        AgreementGoesDown(w, v, c, tip, k.height);
      }
      AgreementMakesCanonical(db, w, v, c, tables);
    } else {
      assert Mismatch(db, c, tip, reported);
      assert db.blocks[at] != v(c, tip).meta;
    }
  }

  lemma RollbackKeepsIndexed(db: Db, w: World, c: nat, from: nat, tables: set<string>)
    requires IndexedFrom(db, w, c, tables)
    ensures IndexedFrom(RolledBack(db, c, from, tables), w, c, tables)
    ensures forall k :: k in RolledBack(db, c, from, tables).blocks && k.chain == c ==> k in db.blocks && k.height < from
  {
  }

  /** When the probe fires, everything left is canonical exactly when the highest block left is:
      a second probe would be silent. So the rollback is deep enough, as it is whenever the chains
      agree up to the fork, or the very next check rolls back further. */
  lemma RollbackSettles(
    db: Db, w: World, v: World, c: nat, confirmations: nat, tables: set<string>, tip: nat, db': Db, reindex: Option<nat>)
    requires Linked(w, c) && Linked(v, c) && HashesBind(w, v, c) && IndexedFrom(db, w, c, tables)
    requires Mismatch(db, c, tip, Some(v(c, tip).meta.hash))
    requires (db', reindex) == Checked(db, c, confirmations, true, Some(v(c, tip).meta.hash), tables)
    ensures reindex == Some(ForkOf(tip, confirmations) + 1)
    ensures c in db.cursors ==> c in db'.cursors && db'.cursors[c] == Checkpoint(ForkOf(tip, confirmations), [])
    ensures ChainCanonical(db', v, c, tables) <==>
            forall h :: IsTip(db'.blocks, c, h) ==> db'.blocks[BlockAt(c, h)].hash == v(c, h).meta.hash
  {
    var reported := Some(v(c, tip).meta.hash);
    assert forall t :: Mismatch(db, c, t, reported) ==> t == tip;
    var from := ForkOf(tip, confirmations) + 1;
    assert db' == RolledBack(db, c, from, tables);
    RollbackKeepsIndexed(db, w, c, from, tables);
    if forall h :: IsTip(db'.blocks, c, h) ==> db'.blocks[BlockAt(c, h)].hash == v(c, h).meta.hash {
      SurvivorsAgree(db', w, v, c, tables);
      AgreementMakesCanonical(db', w, v, c, tables);
    }
  }

  lemma SurvivorsAgree(db: Db, w: World, v: World, c: nat, tables: set<string>)
    requires Linked(w, c) && Linked(v, c) && HashesBind(w, v, c) && IndexedFrom(db, w, c, tables)
    requires forall h :: IsTip(db.blocks, c, h) ==> db.blocks[BlockAt(c, h)].hash == v(c, h).meta.hash
    ensures forall k :: k in db.blocks && k.chain == c ==> w(c, k.height) == v(c, k.height)
  {
    forall k | k in db.blocks && k.chain == c
      ensures w(c, k.height) == v(c, k.height)
    {
      var top := FindTip(db.blocks, c, k);
      assert db.blocks[BlockAt(c, top)].hash == v(c, top).meta.hash;
      AgreementGoesDown(w, v, c, top, k.height);
    }
  }

  lemma FindTip(blocks: map<BlockAt, BlockMeta>, c: nat, k: BlockAt) returns (top: nat)
    requires k in blocks && k.chain == c
    ensures IsTip(blocks, c, top) && k.height <= top
  {
    top := k.height;
    var scan := blocks.Keys;
    while scan != {}
      invariant scan <= blocks.Keys && BlockAt(c, top) in blocks && k.height <= top
      invariant forall j :: j in blocks.Keys - scan && j.chain == c ==> j.height <= top
      decreases scan
    {
      var j :| j in scan;
      scan := scan - {j};
      if j.chain == c && j.height > top {
        assert j == BlockAt(c, j.height);
        top := j.height;
      }
    }
  }

  /** Within the confirmation depth the rollback is always enough. */
  lemma ShallowReorgSettles(
    db: Db, w: World, v: World, c: nat, confirmations: nat, tables: set<string>, tip: nat, db': Db, reindex: Option<nat>)
    requires Linked(w, c) && Linked(v, c) && HashesBind(w, v, c) && IndexedFrom(db, w, c, tables)
    requires Mismatch(db, c, tip, Some(v(c, tip).meta.hash))
    requires (db', reindex) == Checked(db, c, confirmations, true, Some(v(c, tip).meta.hash), tables)
    requires w(c, ForkOf(tip, confirmations)).meta.hash == v(c, ForkOf(tip, confirmations)).meta.hash
    ensures ChainCanonical(db', v, c, tables)
    ensures c in db.cursors ==> db'.cursors[c].height == ForkOf(tip, confirmations)
  {
    RollbackSettles(db, w, v, c, confirmations, tables, tip, db', reindex);
    var fork := ForkOf(tip, confirmations);
    RollbackKeepsIndexed(db, w, c, fork + 1, tables);
    forall h | IsTip(db'.blocks, c, h)
      ensures db'.blocks[BlockAt(c, h)].hash == v(c, h).meta.hash
    {
      assert BlockAt(c, h) in db'.blocks;
      AgreementGoesDown(w, v, c, fork, h);
    }
  }

  /** Both outcomes of a probe: silent exactly when every stored block is canonical; every row left is
      canonical when it is silent or the chains agree at the fork. */
  lemma ProbeOutcome(
    db: Db, w: World, v: World, c: nat, confirmations: nat, tables: set<string>, tip: nat, db': Db, reindex: Option<nat>)
    requires Linked(w, c) && Linked(v, c) && HashesBind(w, v, c) && IndexedFrom(db, w, c, tables) && IsTip(db.blocks, c, tip)
    requires (db', reindex) == Checked(db, c, confirmations, true, Some(v(c, tip).meta.hash), tables)
    ensures reindex.None? <==> forall b :: b in db.blocks && b.chain == c ==> db.blocks[b] == v(c, b.height).meta
    ensures reindex.None? || w(c, ForkOf(tip, confirmations)).meta.hash == v(c, ForkOf(tip, confirmations)).meta.hash ==>
              ChainCanonical(db', v, c, tables)
  {
    ProbeDecides(db, w, v, c, confirmations, tables, tip, db', reindex);
    if reindex.Some? && w(c, ForkOf(tip, confirmations)).meta.hash == v(c, ForkOf(tip, confirmations)).meta.hash {
      ShallowReorgSettles(db, w, v, c, confirmations, tables, tip, db', reindex);
    }
  }

  /** With no confirmations the rollback starts above the stored tip: it deletes nothing of the
      chain's blocks, and the block that failed the probe stays. */
  lemma NoConfirmationsNoRollback(
    db: Db, v: World, c: nat, tables: set<string>, tip: nat, db': Db, reindex: Option<nat>)
    requires Mismatch(db, c, tip, Some(v(c, tip).meta.hash))
    requires (db', reindex) == Checked(db, c, 0, true, Some(v(c, tip).meta.hash), tables)
    ensures Mismatch(db', c, tip, Some(v(c, tip).meta.hash))
    ensures !ChainCanonical(db', v, c, tables)
  {
  }
}
