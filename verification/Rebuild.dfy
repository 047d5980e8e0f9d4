/** A reorg handled to the end: rollback, re-ingest by any run or by drives that may be interrupted
    anywhere, and the drain of the queue. The tables are those of a fresh index, at every height. */
module Rebuild {
  import opened Model
  import opened Plan
  import opened Queue
  import opened Chain
  import opened Drive
  import opened Reorg
  import opened Decode
  import opened Indexer
  import opened Delivery
  import opened Reindex

  // ---------------------------------------------------------------- drives are runs

  /** A drive that stopped, also between a commit and its cursor write, is a run. */
  lemma AttemptIsARun(byTx: Schema, ds: Decoders, w: World, closed: set<nat>, s: State, c: nat, next: nat, a: Attempt)
    returns (states: seq<State>, steps: seq<Step>)
    requires ValidAttempt(w, c, next, a)
    ensures IndexRun(byTx, ds, w, closed, states, steps) && states[0] == s
    ensures states[|steps|] == s.(db := Attempted(byTx, w, c, s.db, next, a))
  {
    var tiles := Window(w, c, next, a.target, a.step);
    if a.torn && a.order != [] {
      var front, tile := a.order[..|a.order| - 1], tiles[a.order[|a.order| - 1]];
      states, steps := DriveIsARun(byTx, ds, w, closed, s, c, tiles, next, front);
      states, steps := OneMore(byTx, ds, w, closed, states, steps, Commit(c, tile.lo, tile.hi),
                               s.(db := Attempted(byTx, w, c, s.db, next, a)));
    } else {
      states, steps := DriveIsARun(byTx, ds, w, closed, s, c, tiles, next, a.order);
    }
  }

  /** Any number of drives, each resumed after the cursor the last one left, are a run. */
  lemma {:induction false} AttemptsAreARun(
    byTx: Schema, ds: Decoders, w: World, closed: set<nat>, s: State, c: nat, startBlock: nat, attempts: seq<Attempt>)
    returns (states: seq<State>, steps: seq<Step>)
    requires ValidAttempts(byTx, w, c, s.db, startBlock, attempts)
    ensures IndexRun(byTx, ds, w, closed, states, steps) && states[0] == s
    ensures states[|steps|] == s.(db := AfterAttempts(byTx, w, c, s.db, startBlock, attempts))
    decreases |attempts|
  {
    if attempts == [] {
      states, steps := [s], [];
    } else {
      var a, aSteps := AttemptIsARun(byTx, ds, w, closed, s, c, Resume(s.db, c, startBlock), attempts[0]);
      var b, bSteps := AttemptsAreARun(byTx, ds, w, closed, a[|aSteps|], c, startBlock, attempts[1..]);
      states, steps := RunsJoin(byTx, ds, w, closed, a, aSteps, b, bSteps);
    }
  }

  // ---------------------------------------------------------------- what drives queue

  lemma CommitQueuesWithin(byTx: Schema, w: World, db: Db, d: nat, lo: nat, hi: nat, c: nat, low: nat, high: nat)
    requires QueuedWithin(db.queue, c, low, high) && (d == c ==> low <= lo && hi <= high)
    ensures QueuedWithin(Committed(byTx, db, d, Fetched(w, d, lo, hi)).queue, c, low, high)
  {
  }

  lemma {:induction false} DriveQueuesWithin(
    byTx: Schema, w: World, c: nat, db: Db, tiles: seq<Tile>, start: nat, order: seq<nat>, low: nat, high: nat)
    requires InWindow(order, tiles) && QueuedWithin(db.queue, c, low, high)
    requires forall i :: 0 <= i < |tiles| ==> low <= tiles[i].lo && tiles[i].hi <= high
    ensures QueuedWithin(Driven(byTx, w, c, db, tiles, start, order).db.queue, c, low, high)
  {
    if order != [] {
      var front, tile := order[..|order| - 1], tiles[order[|order| - 1]];
      DriveQueuesWithin(byTx, w, c, db, tiles, start, front, low, high);
      CommitQueuesWithin(byTx, w, Driven(byTx, w, c, db, tiles, start, front).db, c, tile.lo, tile.hi, c, low, high);
    }
  }

  lemma TornQueuesWithin(
    byTx: Schema, w: World, c: nat, db: Db, tiles: seq<Tile>, start: nat, front: seq<nat>, last: nat, low: nat, high: nat)
    requires InWindow(front, tiles) && last < |tiles| && QueuedWithin(db.queue, c, low, high)
    requires forall i :: 0 <= i < |tiles| ==> low <= tiles[i].lo && tiles[i].hi <= high
    ensures QueuedWithin(CommitTile(byTx, w, c, Driven(byTx, w, c, db, tiles, start, front).db, tiles[last]).queue, c, low, high)
  {
    DriveQueuesWithin(byTx, w, c, db, tiles, start, front, low, high);
    CommitQueuesWithin(byTx, w, Driven(byTx, w, c, db, tiles, start, front).db, c, tiles[last].lo, tiles[last].hi, c, low, high);
  }

  lemma WindowWithin(w: World, c: nat, next: nat, a: Attempt, tiles: seq<Tile>, low: nat, high: nat)
    requires WellFormed(w) && ValidAttempt(w, c, next, a) && low <= next && a.target <= high
    requires tiles == Window(w, c, next, a.target, a.step)
    ensures forall i :: 0 <= i < |tiles| ==> low <= tiles[i].lo && tiles[i].hi <= high
  {
    WindowTiles(w, c, next, a.target, a.step);
    forall i | 0 <= i < |tiles|
      ensures low <= tiles[i].lo && tiles[i].hi <= high
    {
      TilesStayInside(tiles, next, i);
    }
  }

  lemma AttemptQueuesWithin(byTx: Schema, w: World, c: nat, db: Db, next: nat, a: Attempt, low: nat, high: nat)
    requires WellFormed(w) && ValidAttempt(w, c, next, a) && QueuedWithin(db.queue, c, low, high) && low <= next && a.target <= high
    ensures QueuedWithin(Attempted(byTx, w, c, db, next, a).queue, c, low, high)
  {
    var tiles := Window(w, c, next, a.target, a.step);
    WindowWithin(w, c, next, a, tiles, low, high);
    if a.torn && a.order != [] {
      TornQueuesWithin(byTx, w, c, db, tiles, next, a.order[..|a.order| - 1], a.order[|a.order| - 1], low, high);
    } else {
      DriveQueuesWithin(byTx, w, c, db, tiles, next, a.order, low, high);
    }
  }

  /** The drives' items stay between where they started and their target. */
  lemma {:induction false} AttemptsQueueWithin(
    byTx: Schema, w: World, c: nat, startBlock: nat, target: nat, first: Db, db: Db, attempts: seq<Attempt>, low: nat)
    requires WellFormed(w) && SchemaOk(byTx) && OnTheWay(byTx, w, c, startBlock, target, first, db)
    requires ValidAttempts(byTx, w, c, db, startBlock, attempts)
    requires forall i :: 0 <= i < |attempts| ==> attempts[i].target <= target
    requires QueuedWithin(db.queue, c, low, target) && low <= Resume(first, c, startBlock)
    ensures QueuedWithin(AfterAttempts(byTx, w, c, db, startBlock, attempts).queue, c, low, target)
    decreases |attempts|
  {
    if attempts != [] {
      var next := Resume(db, c, startBlock);
      AttemptQueuesWithin(byTx, w, c, db, next, attempts[0], low, target);
      AttemptStaysOnTheWay(byTx, w, c, startBlock, target, first, db, attempts[0]);
      AttemptsQueueWithin(byTx, w, c, startBlock, target, first, Attempted(byTx, w, c, db, next, attempts[0]), attempts[1..], low);
    }
  }

  // ---------------------------------------------------------------- nothing above the target

  /** The database holds nothing of the chain above the height. */
  ghost predicate Below(db: Db, c: nat, top: nat) {
    && (forall k :: k in db.raw && k.chain == c ==> k.height <= top)
    && (forall k :: k in db.blocks && k.chain == c ==> k.height <= top)
    && (forall k :: k in db.typed && db.typed[k].chain == c ==> db.typed[k].height <= top)
  }

  lemma GrowthStaysBelow(db: Db, db': Db, d: nat, lo: nat, hi: int, c: nat, top: nat)
    requires Below(db, c, top) && GrewWithin(db, db', d, lo, hi) && (d != c || hi <= top)
    requires forall k :: k in db'.typed && k in db.typed ==> db'.typed[k] == db.typed[k]
    ensures Below(db', c, top)
  {
  }

  lemma RowIsBelow(byTx: Schema, ds: Decoders, w: World, db: Db, x: EventRow, top: nat)
    requires RowSound(byTx, ds, w, db, x) && WellFormed(w) && forall k :: k in db.raw && k.chain == x.chain ==> k.height <= top
    ensures x.height <= top
  {
    var r :| r in w(x.chain, x.height).logs && x in RowsFrom(w, ds[x.chain], r);
    assert BlockOk(w(x.chain, x.height), x.chain, x.height);
    assert r.Pos() in db.raw;
  }

  lemma WriteStaysBelow(byTx: Schema, ds: Decoders, w: World, db: Db, typed': map<RowKey, EventRow>, c: nat, top: nat)
    requires WellFormed(w) && DbOk(byTx, ds, w, db.(typed := typed')) && Below(db, c, top)
    requires forall k :: k in typed' && IsAux(typed'[k].table) ==> k in db.typed && db.typed[k] == typed'[k]
    ensures Below(db.(typed := typed'), c, top)
  {
    forall k | k in typed' && typed'[k].chain == c && !IsAux(typed'[k].table)
      ensures typed'[k].height <= top
    {
      RowIsBelow(byTx, ds, w, db.(typed := typed'), typed'[k], top);
    }
  }

  /** A commit of the chain stays between the heights. */
  predicate CommitWithin(step: Step, c: nat, low: nat, top: nat) {
    step.Commit? && step.c == c ==> low <= step.lo && step.hi <= top
  }

  /** A step that commits nothing of the chain above the height puts nothing of it there. */
  lemma NextStaysBelow(byTx: Schema, ds: Decoders, w: World, closed: set<nat>, s: State, step: Step, s': State, c: nat, low: nat, top: nat)
    requires Setup(byTx, ds, w) && Delivery.Inv(byTx, ds, w, closed, s) && Leads(byTx, ds, w, closed, s, step, s')
    requires Below(s.db, c, top) && CommitWithin(step, c, low, top)
    ensures Below(s'.db, c, top)
  {
    match step {
      case Commit(d, lo, hi) =>
        CommitGrowsWithin(byTx, w, d, s.db, lo, hi);
        GrowthStaysBelow(s.db, s'.db, d, lo, hi, c, top);
      case SetCursor(_, _) =>
      case Pull(_, _, _) =>
      case ReadRaw(_) =>
      case ReadTimes(_) =>
      case ReadCalls(_) =>
      case Write(wk, table, typed) =>
        Delivery.NextKeeps(byTx, ds, w, closed, s, step, s');
        WriterRowsAreNotAux(byTx, ds, w, closed, s, wk, table, typed);
        WriteStaysBelow(byTx, ds, w, s.db, typed, c, top);
      case Ack(_) =>
      case Reclaim(_, _) =>
      case Crash(_) =>
    }
  }

  lemma WriterRowsAreNotAux(
    byTx: Schema, ds: Decoders, w: World, closed: set<nat>, s: State, wk: nat, table: string, typed: map<RowKey, EventRow>)
    requires Setup(byTx, ds, w) && Delivery.Inv(byTx, ds, w, closed, s) && Indexer.Enabled(byTx, s, Write(wk, table, typed))
    ensures forall k :: k in typed && IsAux(typed[k].table) ==> k in s.db.typed && s.db.typed[k] == typed[k]
  {
    var me := WorkerOf(s, wk);
    assert WorkerOk(byTx, ds, w, closed, s.db, me);
    forall k | k in typed && k !in s.db.typed
      ensures !IsAux(typed[k].table)
    {
      ExpectedIsNotAux(byTx, w, ds[me.lease.item.chain], typed[k]);
    }
  }

  lemma NextQueuesWithin(byTx: Schema, ds: Decoders, w: World, closed: set<nat>, s: State, step: Step, s': State, c: nat, low: nat, top: nat)
    requires Leads(byTx, ds, w, closed, s, step, s')
    requires QueuedWithin(s.db.queue, c, low, top) && CommitWithin(step, c, low, top)
    ensures QueuedWithin(s'.db.queue, c, low, top)
  {
    match step {
      case Commit(d, lo, hi) => CommitQueuesWithin(byTx, w, s.db, d, lo, hi, c, low, top);
      case SetCursor(_, _) =>
      case Pull(_, _, _) =>
      case ReadRaw(_) =>
      case ReadTimes(_) =>
      case ReadCalls(_) =>
      case Write(_, _, _) =>
      case Ack(_) =>
      case Reclaim(_, _) =>
      case Crash(_) =>
    }
  }

  ghost predicate CommitsWithin(steps: seq<Step>, c: nat, low: nat, top: nat) {
    forall k :: 0 <= k < |steps| ==> CommitWithin(steps[k], c, low, top)
  }

  ghost predicate CommitsNothingOf(steps: seq<Step>, c: nat) {
    forall k :: 0 <= k < |steps| && steps[k].Commit? ==> steps[k].c != c
  }

  /** Nothing of the chain is stored above the height, and nothing queued outside the two. */
  ghost predicate Contained(db: Db, c: nat, low: nat, top: nat) {
    Below(db, c, top) && QueuedWithin(db.queue, c, low, top)
  }

  lemma RunStepContained(
    byTx: Schema, ds: Decoders, w: World, closed: set<nat>, states: seq<State>, steps: seq<Step>, i: nat, j: nat, c: nat, low: nat, top: nat)
    requires Setup(byTx, ds, w) && IndexRun(byTx, ds, w, closed, states, steps) && Delivery.Inv(byTx, ds, w, closed, states[0])
    requires j == i + 1 && j < |states| && CommitsWithin(steps, c, low, top) && Below(states[i].db, c, top)
    ensures Below(states[j].db, c, top)
    ensures QueuedWithin(states[i].db.queue, c, low, top) ==> QueuedWithin(states[j].db.queue, c, low, top)
  {
    RunKeeps(byTx, ds, w, closed, states, steps, i);
    assert CommitWithin(steps[i], c, low, top);
    NextStaysBelow(byTx, ds, w, closed, states[i], steps[i], states[j], c, low, top);
    if QueuedWithin(states[i].db.queue, c, low, top) {
      NextQueuesWithin(byTx, ds, w, closed, states[i], steps[i], states[j], c, low, top);
    }
  }

  lemma RunStaysContained(
    byTx: Schema, ds: Decoders, w: World, closed: set<nat>, states: seq<State>, steps: seq<Step>, k: nat, c: nat, low: nat, top: nat)
    requires Setup(byTx, ds, w) && IndexRun(byTx, ds, w, closed, states, steps) && Delivery.Inv(byTx, ds, w, closed, states[0])
    requires CommitsWithin(steps, c, low, top) && Contained(states[0].db, c, low, top) && k <= |steps|
    ensures Contained(states[k].db, c, low, top)
  {
    var holds := (s: State) => Contained(s.db, c, low, top);
    forall i, j | 0 <= i && j == i + 1 && j < |states| && holds(states[i])
      ensures holds(states[j])
    {
      RunStepContained(byTx, ds, w, closed, states, steps, i, j, c, low, top);
    }
    AllAlong(holds, states, k);
  }

  lemma RunStaysBelow(byTx: Schema, ds: Decoders, w: World, states: seq<State>, steps: seq<Step>, k: nat, c: nat, top: nat)
    requires Setup(byTx, ds, w) && IndexRun(byTx, ds, w, {}, states, steps) && Delivery.Inv(byTx, ds, w, {}, states[0])
    requires CommitsNothingOf(steps, c) && Below(states[0].db, c, top) && k <= |steps|
    ensures Below(states[k].db, c, top)
  {
    var holds := (s: State) => Below(s.db, c, top);
    forall i, j | 0 <= i && j == i + 1 && j < |states| && holds(states[i])
      ensures holds(states[j])
    {
      RunStepContained(byTx, ds, w, {}, states, steps, i, j, c, 0, top);
    }
    AllAlong(holds, states, k);
  }

  // ---------------------------------------------------------------- what a run's commits cover

  predicate CommitsHeight(step: Step, c: nat, h: nat) {
    step.Commit? && step.c == c && step.lo <= h <= step.hi
  }

  ghost predicate SomeCommits(steps: seq<Step>, c: nat, h: nat) {
    exists k :: 0 <= k < |steps| && CommitsHeight(steps[k], c, h)
  }

  /** Every height in between is in the range of a commit. */
  ghost predicate CommitsAll(steps: seq<Step>, c: nat, lo: nat, hi: nat) {
    forall h: nat :: lo <= h <= hi ==> SomeCommits(steps, c, h)
  }

  lemma CommitStepCovers(byTx: Schema, ds: Decoders, w: World, closed: set<nat>, s: State, step: Step, s': State, c: nat, h: nat)
    requires Setup(byTx, ds, w) && Delivery.Inv(byTx, ds, w, closed, s) && Leads(byTx, ds, w, closed, s, step, s')
    requires CommitsHeight(step, c, h)
    ensures AllCovered(byTx, s'.db, w, c, h, h)
  {
    CommitCoversAt(byTx, s.db, w, c, step.lo, step.hi, h);
  }

  lemma {:induction false} CommittedStays(
    byTx: Schema, ds: Decoders, w: World, closed: set<nat>, states: seq<State>, steps: seq<Step>, k: nat, n: nat, c: nat, h: nat)
    requires Setup(byTx, ds, w) && IndexRun(byTx, ds, w, closed, states, steps) && Delivery.Inv(byTx, ds, w, closed, states[0])
    requires k < n <= |steps| && CommitsHeight(steps[k], c, h)
    ensures AllCovered(byTx, states[n].db, w, c, h, h)
  {
    var m := n - 1;
    RunKeeps(byTx, ds, w, closed, states, steps, m);
    if m == k {
      CommitStepCovers(byTx, ds, w, closed, states[k], steps[k], states[n], c, h);
    } else {
      CommittedStays(byTx, ds, w, closed, states, steps, k, m, c, h);
      RunStepKeepsCover(byTx, ds, w, closed, states, steps, m, n, c, h, h);
    }
  }

  lemma RunCovers(byTx: Schema, ds: Decoders, w: World, closed: set<nat>, states: seq<State>, steps: seq<Step>, c: nat, lo: nat, hi: nat)
    requires Setup(byTx, ds, w) && IndexRun(byTx, ds, w, closed, states, steps) && Delivery.Inv(byTx, ds, w, closed, states[0])
    requires CommitsAll(steps, c, lo, hi)
    ensures AllCovered(byTx, states[|steps|].db, w, c, lo, hi)
  {
    forall h: nat | lo <= h <= hi
      ensures Covers(byTx, states[|steps|].db, w, c, h)
    {
      assert SomeCommits(steps, c, h);
      var k :| 0 <= k < |steps| && CommitsHeight(steps[k], c, h);
      CommittedStays(byTx, ds, w, closed, states, steps, k, |steps|, c, h);
    }
  }

  // ---------------------------------------------------------------- an index up to a height

  /** The chain is indexed from `start` to `target` and no further: sound, drained, everything in between
      committed and nothing above. */
  ghost predicate IndexedTo(byTx: Schema, ds: Decoders, v: World, c: nat, start: nat, target: nat, s: State) {
    && Delivery.Inv(byTx, ds, v, {}, s) && Drained(s.db, c)
    && AllCovered(byTx, s.db, v, c, start, target) && Below(s.db, c, target)
  }

  /** Two such indexes hold the same rows of the chain at every height from the start block up. */
  lemma IndexIsDetermined(byTx: Schema, ds: Decoders, v: World, c: nat, start: nat, target: nat, a: State, b: State, h: nat)
    requires Setup(byTx, ds, v) && c in ds && start <= h
    requires IndexedTo(byTx, ds, v, c, start, target, a) && IndexedTo(byTx, ds, v, c, start, target, b)
    ensures AgreeAt(a.db, b.db, c, h)
  {
    if h <= target {
      DrainedDatabasesAgree(byTx, ds, v, a, b, c, h);
    }
  }

  /** Draining what is committed to a height gives an index to it. */
  lemma DrainIndexes(byTx: Schema, ds: Decoders, v: World, c: nat, start: nat, target: nat, drain: seq<State>, steps: seq<Step>)
    requires Setup(byTx, ds, v) && IndexRun(byTx, ds, v, {}, drain, steps) && CommitsNothingOf(steps, c)
    requires Delivery.Inv(byTx, ds, v, {}, drain[0]) && AllCovered(byTx, drain[0].db, v, c, start, target) && Below(drain[0].db, c, target)
    requires Drained(drain[|steps|].db, c)
    ensures IndexedTo(byTx, ds, v, c, start, target, drain[|steps|])
  {
    RunKeeps(byTx, ds, v, {}, drain, steps, |steps|);
    RunKeepsCover(byTx, ds, v, {}, drain, steps, |steps|, c, start, target);
    RunStaysBelow(byTx, ds, v, drain, steps, |steps|, c, target);
  }

  /** A run from the empty database that commits every height from `start` to `target` and none above,
      and ends drained, gives an index. */
  lemma FreshRunIsIndexed(
    byTx: Schema, ds: Decoders, v: World, c: nat, start: nat, target: nat, states: seq<State>, steps: seq<Step>)
    requires Setup(byTx, ds, v) && IndexRun(byTx, ds, v, {}, states, steps) && states[0] == State(EMPTY_DB, map[])
    requires CommitsWithin(steps, c, 0, target) && CommitsAll(steps, c, start, target) && Drained(states[|steps|].db, c)
    ensures IndexedTo(byTx, ds, v, c, start, target, states[|steps|])
  {
    RunKeeps(byTx, ds, v, {}, states, steps, |steps|);
    RunCovers(byTx, ds, v, {}, states, steps, c, start, target);
    RunStaysContained(byTx, ds, v, {}, states, steps, |steps|, c, 0, target);
  }

  /** A run that commits everything rolled back, with the chain closed to workers, brings it back to a
      sound state. */
  lemma ReingestRebuilds(
    byTx: Schema, ds: Decoders, w: World, v: World, c: nat, fork: nat, tables: set<string>, start: nat, target: nat, s: State,
    states: seq<State>, steps: seq<Step>)
    requires Setup(byTx, ds, w) && Setup(byTx, ds, v) && Delivery.Inv(byTx, ds, w, {}, s) && SameUpTo(w, v, c, fork)
    requires NobodyOn(s, c) && Lists(tables, s.db, c) && AllCovered(byTx, s.db, w, c, start, fork) && fork <= target
    requires IndexRun(byTx, ds, v, {c}, states, steps) && states[0] == State(RolledBack(s.db, c, fork + 1, tables), s.workers)
    requires CommitsAll(steps, c, fork + 1, target) && CommitsWithin(steps, c, Lower(start, fork + 1), target)
    requires QueuedWithin(s.db.queue, c, Lower(start, fork + 1), target)
    ensures Delivery.Inv(byTx, ds, v, {}, states[|steps|])
    ensures AllCovered(byTx, states[|steps|].db, v, c, start, target) && Below(states[|steps|].db, c, target)
  {
    var low := Lower(start, fork + 1);
    RollbackIntoNew(byTx, ds, w, v, s, c, fork, tables, states[0].db);
    RolledBackStaysBelow(byTx, w, s.db, c, fork, tables);
    assert states[0].db.queue == s.db.queue;
    RunStaysContained(byTx, ds, v, {c}, states, steps, |steps|, c, low, target);
    RunCovers(byTx, ds, v, {c}, states, steps, c, fork + 1, target);
    ReingestSettles(byTx, ds, w, v, c, fork, tables, low, target, s, states, steps);
  }

  /** A reorg within the confirmations, noticed by the probe while no worker is on the chain: roll back,
      let any run commit the heights from the fork to `target` again, the chain closed to leases, and
      drain. The chain is then indexed from the start block to the target, and its tables are those of
      any such index at every height from there up. */
  lemma ReindexEqualsFresh(
    byTx: Schema, ds: Decoders, w: World, v: World, c: nat, confirmations: nat, tables: set<string>, tip: nat, fork: nat,
    start: nat, target: nat, s: State, reingest: seq<State>, reSteps: seq<Step>, drain: seq<State>, steps: seq<Step>)
    requires Setup(byTx, ds, w) && Setup(byTx, ds, v) && fork == ForkOf(tip, confirmations) <= target
    requires Linked(w, c) && Linked(v, c) && HashesBind(w, v, c) && OthersSame(w, v, c)
    // the old chain as indexed so far, with the cursor at or above the fork
    requires Delivery.Inv(byTx, ds, w, {}, s) && NobodyOn(s, c) && Lists(tables, s.db, c)
    requires c in s.db.cursors && s.db.cursors[c].height >= fork && AllCovered(byTx, s.db, w, c, start, s.db.cursors[c].height)
    // the probe sees the reorg, and the chains agree up to the fork
    requires Mismatch(s.db, c, tip, Some(v(c, tip).meta.hash)) && w(c, fork).meta.hash == v(c, fork).meta.hash
    // the rolled-back heights committed again, past everything still queued
    requires IndexRun(byTx, ds, v, {c}, reingest, reSteps)
    requires reingest[0] == State(Checked(s.db, c, confirmations, true, Some(v(c, tip).meta.hash), tables).0, s.workers)
    requires CommitsAll(reSteps, c, fork + 1, target) && CommitsWithin(reSteps, c, Lower(start, fork + 1), target)
    requires QueuedWithin(s.db.queue, c, Lower(start, fork + 1), target)
    // the drain
    requires IndexRun(byTx, ds, v, {}, drain, steps) && drain[0] == reingest[|reSteps|]
    requires CommitsNothingOf(steps, c) && Drained(drain[|steps|].db, c)
    ensures IndexedTo(byTx, ds, v, c, start, target, drain[|steps|])
    ensures forall index, h :: c in ds && start <= h && IndexedTo(byTx, ds, v, c, start, target, index) ==>
              AgreeAt(drain[|steps|].db, index.db, c, h)
  {
    ReorgRollsBack(byTx, s.db, w, v, c, confirmations, tables, tip, fork, start, reingest[0].db);
    ReingestRebuilds(byTx, ds, w, v, c, fork, tables, start, target, s, reingest, reSteps);
    DrainIndexes(byTx, ds, v, c, start, target, drain, steps);
    IndexesAgree(byTx, ds, v, c, start, target, drain[|steps|]);
  }

  lemma IndexesAgree(byTx: Schema, ds: Decoders, v: World, c: nat, start: nat, target: nat, rebuilt: State)
    requires Setup(byTx, ds, v) && IndexedTo(byTx, ds, v, c, start, target, rebuilt)
    ensures forall index, h :: c in ds && start <= h && IndexedTo(byTx, ds, v, c, start, target, index) ==>
              AgreeAt(rebuilt.db, index.db, c, h)
  {
    forall index, h | c in ds && start <= h && IndexedTo(byTx, ds, v, c, start, target, index)
      ensures AgreeAt(rebuilt.db, index.db, c, h)
    {
      IndexIsDetermined(byTx, ds, v, c, start, target, rebuilt, index, h);
    }
  }

  /** Drives towards `target`, interrupted anywhere, the last one complete. */
  ghost predicate DrivesTo(byTx: Schema, v: World, c: nat, startBlock: nat, db: Db, attempts: seq<Attempt>, final: Attempt, db': Db) {
    && ValidAttempts(byTx, v, c, db, startBlock, attempts)
    && (forall i :: 0 <= i < |attempts| ==> attempts[i].target <= final.target)
    && Resume(db, c, startBlock) <= final.target
    && var mid := AfterAttempts(byTx, v, c, db, startBlock, attempts);
       && CompleteAttempt(v, c, Resume(mid, c, startBlock), final)
       && db' == Attempted(byTx, v, c, mid, Resume(mid, c, startBlock), final)
  }

  lemma DrivesCover(byTx: Schema, v: World, c: nat, startBlock: nat, db: Db, attempts: seq<Attempt>, final: Attempt, db': Db)
    requires WellFormed(v) && SchemaOk(byTx) && Canonical(byTx, db, v) && DrivesTo(byTx, v, c, startBlock, db, attempts, final, db')
    ensures AllCovered(byTx, db', v, c, Resume(db, c, startBlock), final.target)
    ensures GrewWithin(db, db', c, Resume(db, c, startBlock), final.target)
  {
    assert OnTheWay(byTx, v, c, startBlock, final.target, db, db);
    AttemptsStayOnTheWay(byTx, v, c, startBlock, final.target, db, db, attempts);
    var mid := AfterAttempts(byTx, v, c, db, startBlock, attempts);
    AttemptStaysOnTheWay(byTx, v, c, startBlock, final.target, db, mid, final);
  }

  lemma DrivesQueueWithin(byTx: Schema, v: World, c: nat, startBlock: nat, db: Db, attempts: seq<Attempt>, final: Attempt, db': Db, low: nat)
    requires WellFormed(v) && SchemaOk(byTx) && Canonical(byTx, db, v) && DrivesTo(byTx, v, c, startBlock, db, attempts, final, db')
    requires QueuedWithin(db.queue, c, low, final.target) && low <= Resume(db, c, startBlock)
    ensures QueuedWithin(db'.queue, c, low, final.target)
  {
    assert OnTheWay(byTx, v, c, startBlock, final.target, db, db);
    AttemptsQueueWithin(byTx, v, c, startBlock, final.target, db, db, attempts, low);
    AttemptsStayOnTheWay(byTx, v, c, startBlock, final.target, db, db, attempts);
    var mid := AfterAttempts(byTx, v, c, db, startBlock, attempts);
    AttemptQueuesWithin(byTx, v, c, mid, Resume(mid, c, startBlock), final, low, final.target);
  }

  lemma DrivesAreARun(byTx: Schema, ds: Decoders, v: World, closed: set<nat>, s: State, c: nat, startBlock: nat, attempts: seq<Attempt>, final: Attempt, db': Db)
    returns (states: seq<State>, steps: seq<Step>)
    requires DrivesTo(byTx, v, c, startBlock, s.db, attempts, final, db')
    ensures IndexRun(byTx, ds, v, closed, states, steps) && states[0] == s && states[|steps|] == s.(db := db')
  {
    var a, aSteps := AttemptsAreARun(byTx, ds, v, closed, s, c, startBlock, attempts);
    var mid := a[|aSteps|];
    var b, bSteps := AttemptIsARun(byTx, ds, v, closed, mid, c, Resume(mid.db, c, startBlock), final);
    states, steps := RunsJoin(byTx, ds, v, closed, a, aSteps, b, bSteps);
  }

  // ---------------------------------------------------------------- fresh and rebuilt

  /** A fresh index: drives from the empty database, then the drain. */
  lemma FreshIsIndexed(
    byTx: Schema, ds: Decoders, v: World, c: nat, startBlock: nat, attempts: seq<Attempt>, final: Attempt,
    drain: seq<State>, steps: seq<Step>)
    requires Setup(byTx, ds, v) && |drain| > 0 && drain[0].workers == map[]
    requires DrivesTo(byTx, v, c, startBlock, EMPTY_DB, attempts, final, drain[0].db)
    requires IndexRun(byTx, ds, v, {}, drain, steps) && CommitsNothingOf(steps, c) && Drained(drain[|steps|].db, c)
    ensures IndexedTo(byTx, ds, v, c, Resume(EMPTY_DB, c, startBlock), final.target, drain[|steps|])
  {
    var s := State(EMPTY_DB, map[]);
    var states, run := DrivesAreARun(byTx, ds, v, {}, s, c, startBlock, attempts, final, drain[0].db);
    RunKeeps(byTx, ds, v, {}, states, run, |run|);
    assert states[|run|] == drain[0];
    assert Canonical(byTx, EMPTY_DB, v);
    DrivesCover(byTx, v, c, startBlock, EMPTY_DB, attempts, final, drain[0].db);
    GrowthStaysBelow(EMPTY_DB, drain[0].db, c, Resume(EMPTY_DB, c, startBlock), final.target, c, final.target);
    DrainIndexes(byTx, ds, v, c, Resume(EMPTY_DB, c, startBlock), final.target, drain, steps);
  }

  lemma RolledBackStaysBelow(byTx: Schema, w: World, db: Db, c: nat, fork: nat, tables: set<string>)
    requires Canonical(byTx, db, w) && Lists(tables, db, c)
    ensures Below(RolledBack(db, c, fork + 1, tables), c, fork)
  {
    RolledBackIsBelow(byTx, db, w, c, fork + 1, tables);
  }

  lemma ResumesAboveFork(db: Db, c: nat, fork: nat, tables: set<string>, startBlock: nat)
    requires c in db.cursors
    ensures Resume(RolledBack(db, c, fork + 1, tables), c, startBlock) == fork + 1
  {
  }

  function Lower(a: nat, b: nat): nat {
    if a <= b then a else b
  }

  /** The drives after the rollback bring the chain back to a sound state, open to workers again, with
      everything from the start block to their target committed and nothing above it. */
  lemma DrivesRebuild(
    byTx: Schema, ds: Decoders, w: World, v: World, c: nat, fork: nat, tables: set<string>, start: nat, startBlock: nat, s: State,
    db1: Db, attempts: seq<Attempt>, final: Attempt, rebuilt: State)
    requires Setup(byTx, ds, w) && Setup(byTx, ds, v) && Delivery.Inv(byTx, ds, w, {}, s) && SameUpTo(w, v, c, fork)
    requires NobodyOn(s, c) && Lists(tables, s.db, c) && c in s.db.cursors && AllCovered(byTx, s.db, w, c, start, fork)
    requires db1 == RolledBack(s.db, c, fork + 1, tables) && QueuedWithin(s.db.queue, c, Lower(start, fork + 1), final.target)
    requires DrivesTo(byTx, v, c, startBlock, db1, attempts, final, rebuilt.db) && rebuilt.workers == s.workers
    ensures Delivery.Inv(byTx, ds, v, {}, rebuilt)
    ensures AllCovered(byTx, rebuilt.db, v, c, start, final.target) && Below(rebuilt.db, c, final.target)
  {
    var low, target := Lower(start, fork + 1), final.target;
    ResumesAboveFork(s.db, c, fork, tables, startBlock);
    RollbackCanonicalInNew(byTx, w, v, s.db, c, fork, tables);
    DrivesCover(byTx, v, c, startBlock, db1, attempts, final, rebuilt.db);
    assert db1.queue == s.db.queue;
    DrivesQueueWithin(byTx, v, c, startBlock, db1, attempts, final, rebuilt.db, low);
    var states, steps := DrivesAreARun(byTx, ds, v, {c}, State(db1, s.workers), c, startBlock, attempts, final, rebuilt.db);
    assert states[|steps|] == rebuilt;
    ReingestSettles(byTx, ds, w, v, c, fork, tables, low, target, s, states, steps);
    RolledBackStaysBelow(byTx, w, s.db, c, fork, tables);
    GrowthStaysBelow(db1, rebuilt.db, c, fork + 1, target, c, target);
  }

  /** A reorg within the confirmations, from the probe to the drained queue: the check rolls back, the
      pipeline resumes after the fork and is interrupted any number of times before it completes, and
      the workers drain the queue. The chain is then indexed from the start block to the target, and its
      tables are those of any such index, a fresh one for instance, at every height from there up. */
  lemma ReorgRebuilds(
    byTx: Schema, ds: Decoders, w: World, v: World, c: nat, confirmations: nat, tables: set<string>, tip: nat, fork: nat,
    start: nat, startBlock: nat, s: State, db1: Db, attempts: seq<Attempt>, final: Attempt, drain: seq<State>, steps: seq<Step>)
    requires Setup(byTx, ds, w) && Setup(byTx, ds, v) && fork == ForkOf(tip, confirmations)
    requires Linked(w, c) && Linked(v, c) && HashesBind(w, v, c) && OthersSame(w, v, c)
    requires Delivery.Inv(byTx, ds, w, {}, s) && NobodyOn(s, c) && Lists(tables, s.db, c)
    requires c in s.db.cursors && s.db.cursors[c].height >= fork && AllCovered(byTx, s.db, w, c, start, s.db.cursors[c].height)
    requires Mismatch(s.db, c, tip, Some(v(c, tip).meta.hash)) && w(c, fork).meta.hash == v(c, fork).meta.hash
    requires db1 == Checked(s.db, c, confirmations, true, Some(v(c, tip).meta.hash), tables).0
    requires QueuedWithin(s.db.queue, c, Lower(start, fork + 1), final.target)
    requires |drain| > 0 && drain[0].workers == s.workers
    requires DrivesTo(byTx, v, c, startBlock, db1, attempts, final, drain[0].db)
    requires IndexRun(byTx, ds, v, {}, drain, steps) && CommitsNothingOf(steps, c) && Drained(drain[|steps|].db, c)
    ensures IndexedTo(byTx, ds, v, c, start, final.target, drain[|steps|])
    ensures forall index, h :: c in ds && start <= h && IndexedTo(byTx, ds, v, c, start, final.target, index) ==>
              AgreeAt(drain[|steps|].db, index.db, c, h)
  {
    ReorgRollsBack(byTx, s.db, w, v, c, confirmations, tables, tip, fork, start, db1);
    DrivesRebuild(byTx, ds, w, v, c, fork, tables, start, startBlock, s, db1, attempts, final, drain[0]);
    DrainIndexes(byTx, ds, v, c, start, final.target, drain, steps);
    IndexesAgree(byTx, ds, v, c, start, final.target, drain[|steps|]);
  }
}
