/** The ingest loop as it is written: loop variables and tables updated in place, proved to compute
    the turns the invariant is about. */
module Loop {
  import opened Model
  import opened Plan
  import opened Chain
  import opened Database
  import opened Reorg
  import opened Tip
  import opened Ingest

  /** The turns of a script one after the other, up to where the process goes down. */
  ghost function Turns(byTx: Schema, cfg: Config, w: World, s: Sys, script: seq<TurnInput>): Sys
    requires ConfigOk(cfg) && (s.process.Up? ==> s.process.next >= 1)
    decreases |script|
  {
    if s.process.Down? || script == [] then s
    else
      TurnStaysPositive(byTx, cfg, w, s, script[0]);
      Turns(byTx, cfg, w, Turn(byTx, cfg, w, s, script[0]), script[1..])
  }

  lemma TurnStaysPositive(byTx: Schema, cfg: Config, w: World, s: Sys, input: TurnInput)
    requires ConfigOk(cfg) && s.process.Up? && s.process.next >= 1
    ensures Turn(byTx, cfg, w, s, input).process.Up? ==> Turn(byTx, cfg, w, s, input).process.next >= 1
  {
  }

  /** Fetches and commits one bounded window, from the state `s` the loop is in; `stopped` means
      shutdown or an error ended the drive. */
  method Sweep(store: Store, state: TipState, w: World, cfg: Config, next: nat, safe: nat, drive: DriveScript, ghost s: Sys)
    returns (next': nat, stopped: bool)
    requires store.Valid() && WellFormed(w) && ConfigOk(cfg) && next >= 1
    requires s.db == store.Value() && s.process.Up? && s.process.next == next && s.process.tip == state.State()
    modifies store, state
    ensures store.Valid()
    ensures var s' := SweepPart(store.byTx, cfg, w, s, safe, drive);
            && store.Value() == s'.db && stopped == s'.process.Down?
            && (!stopped ==> next' == s'.process.next && state.State() == s'.process.tip)
  {
    var c := cfg.chain;
    var target := FetchTarget(safe, next, cfg.step, cfg.concurrency, true);
    var a := AttemptOf(w, c, next, target, cfg.step, drive);
    var advancedTo, records := RunPipeline(store, w, c, next, target, cfg.step, a.order, a.torn);
    next' := if advancedTo.Some? then advancedTo.value + 1 else next;
    stopped := !EndOf(w, c, next, a, drive).Finished?;
    if !stopped {
      state.reconcile := next' <= safe;
      state.ClearThrough(next' - 1);
    }
  }

  /** Sweeps a window, or checkpoints without a fetch. */
  method CatchUp(store: Store, state: TipState, w: World, cfg: Config, next: nat, safe: nat, drive: DriveScript, ghost s: Sys)
    returns (next': nat, stopped: bool, behind: bool)
    requires store.Valid() && WellFormed(w) && ConfigOk(cfg) && next >= 1
    requires s.db == store.Value() && s.process.Up? && s.process.next == next && s.process.tip == state.State()
    modifies store, state
    ensures store.Valid()
    ensures var s' := if MustFetch(s.process.tip, safe) then SweepPart(store.byTx, cfg, w, s, safe, drive)
                      else CheckpointPart(cfg, s, safe);
            && store.Value() == s'.db && stopped == s'.process.Down?
            && (!stopped ==> next' == s'.process.next && state.State() == s'.process.tip && behind == (next' <= safe))
  {
    var mustFetch := !state.wsEnabled || state.reconcile || exists p :: p in state.pending && p <= safe;
    if mustFetch {
      next', stopped := Sweep(store, state, w, cfg, next, safe, drive, s);
    } else {
      var target := FetchTarget(safe, next, cfg.step, cfg.concurrency, mustFetch);
      store.Advance(cfg.chain, Checkpoint(target, []));
      next', stopped := target + 1, false;
    }
    behind := !stopped && next' <= safe;
  }

  lemma CheckedIgnoresUnseen(db: Db, c: nat, conf: nat, supports: bool, a: Option<Hash>, b: Option<Hash>, tables: set<string>)
    requires forall tip :: IsTip(db.blocks, c, tip) ==> a == b
    ensures Checked(db, c, conf, supports, a, tables) == Checked(db, c, conf, supports, b, tables)
  {
  }

  /** Checks for a reorg: the rows afterwards and where to index from are the check's. */
  method Reindexed(store: Store, cfg: Config, input: TurnInput) returns (reindex: Option<nat>)
    requires store.Valid()
    modifies store
    ensures store.Valid()
    ensures (store.Value(), reindex) ==
            Checked(old(store.Value()), cfg.chain, cfg.confirmations, cfg.supportsReorg, input.reported, Named(cfg.tables))
  {
    ghost var reported;
    ghost var db := store.Value();
    reindex, reported := Check(store, cfg.chain, cfg.confirmations, cfg.supportsReorg, _ => input.reported, cfg.tables);
    CheckedIgnoresUnseen(db, cfg.chain, cfg.confirmations, cfg.supportsReorg, reported, input.reported, Named(cfg.tables));
  }

  /** Takes note of a check that has been made. */
  method NoteCheck(state: TipState, next: nat, reindex: Option<nat>, ghost s: Sys, ghost db: Db) returns (next': nat)
    requires s.process.Up? && s.process.next == next && s.process.tip.(reorgAt := None) == state.State()
    requires reindex.None? ==> db == s.db
    modifies state
    ensures AfterCheck(s, db, reindex) == Sys(db, Up(next', state.State(), s.process.tick + 1), s.past)
  {
    next' := next;
    if reindex.Some? {
      next' := reindex.value;
      state.reconcile := true;
    }
  }

  /** Probes for a reorg when the turn calls for it. */
  method ProbeReorg(store: Store, state: TipState, cfg: Config, next: nat, tick: nat, input: TurnInput, ghost s: Sys)
    returns (next': nat)
    requires store.Valid()
    requires s.db == store.Value() && s.process == Up(next, state.State(), tick)
    modifies store, state
    ensures store.Valid()
    ensures ProbePart(cfg, s, input) == Sys(store.Value(), Up(next', state.State(), tick + 1), s.past)
  {
    var signal := state.TakeReorgSignal();
    var reindex: Option<nat> := None;
    if signal.Some? || !state.wsEnabled || (tick + 1) % REORG_PROBE_TICKS == 0 {
      reindex := Reindexed(store, cfg, input);
    }
    next' := NoteCheck(state, next, reindex, s, store.Value());
  }

  lemma PollCases(byTx: Schema, cfg: Config, w: World, s: Sys, input: TurnInput, safe: nat, seen: Sys)
    requires s.process.Up? && ConfigOk(cfg) && s.process.next >= 1 && safe == Safe(cfg, input.head)
    requires seen == s.(past := s.past.(head := input.head))
    ensures PollPart(byTx, cfg, w, s, input) ==
            if !ShouldPollHead(s.process.tip) then s
            else if safe < s.process.next then seen
            else if MustFetch(s.process.tip, safe) then SweepPart(byTx, cfg, w, seen, safe, input.drive)
            else CheckpointPart(cfg, seen, safe)
  {
  }

  /** Catches up to the safe tip when the turn might act. */
  method Poll(store: Store, state: TipState, w: World, cfg: Config, next: nat, input: TurnInput, ghost s: Sys)
    returns (next': nat, stopped: bool, again: bool)
    requires store.Valid() && WellFormed(w) && ConfigOk(cfg) && next >= 1
    requires s.db == store.Value() && s.process.Up? && s.process.next == next && s.process.tip == state.State()
    modifies store, state
    ensures store.Valid()
    ensures var s' := PollPart(store.byTx, cfg, w, s, input);
            && store.Value() == s'.db && stopped == s'.process.Down?
            && (!stopped ==> next' == s'.process.next && state.State() == s'.process.tip && again == Behind(cfg, s, s', input))
  {
    next', stopped, again := next, false, false;
    ghost var seen := s.(past := s.past.(head := input.head));
    PollCases(store.byTx, cfg, w, s, input, Safe(cfg, input.head), seen);
    if !state.wsEnabled || state.reconcile || state.pending != {} {
      var safe := Safe(cfg, input.head);
      if safe >= next {
        next', stopped, again := CatchUp(store, state, w, cfg, next, safe, input.drive, seen);
      }
    }
  }

  /** Wakes on a pushed event, shutdown, or the interval. */
  method Wait(state: TipState, wake: Wake, ghost s: Sys) returns (stopped: bool)
    requires s.process.Up? && s.process.tip == state.State()
    modifies state
    ensures var s' := WakePart(s, wake);
            stopped == s'.process.Down? && s'.db == s.db &&
            (!stopped ==> s'.process == s.process.(tip := state.State()))
  {
    stopped := wake.Cancelled?;
    if wake.Event? && state.sub {
      state.OnWsEvent(wake.event);
    }
  }

  lemma PartsKeepTick(byTx: Schema, cfg: Config, w: World, s: Sys, input: TurnInput)
    requires ConfigOk(cfg) && s.process.Up? && s.process.next >= 1
    ensures var s' := PollPart(byTx, cfg, w, s, input);
            s'.process.Up? ==> s'.process.tick == s.process.tick && s'.process.next >= 1
  {
  }

  /** One turn of the loop. */
  method OneTurn(store: Store, state: TipState, w: World, cfg: Config, next: nat, tick: nat, input: TurnInput, ghost s: Sys)
    returns (next': nat, stopped: bool)
    requires store.Valid() && WellFormed(w) && ConfigOk(cfg) && next >= 1
    requires s.db == store.Value() && s.process == Up(next, state.State(), tick)
    modifies store, state
    ensures store.Valid()
    ensures var s' := Turn(store.byTx, cfg, w, s, input);
            && store.Value() == s'.db && stopped == s'.process.Down?
            && (!stopped ==> next' >= 1 && s'.process == Up(next', state.State(), tick + 1))
  {
    if input.stop {
      return next, true;
    }
    state.EnsureSubscribed(input.accepted);
    ghost var s1 := SubscribePart(s, input);
    next' := ProbeReorg(store, state, cfg, next, tick, input, s1);
    ghost var s2 := ProbePart(cfg, s1, input);
    var again: bool;
    PartsKeepTick(store.byTx, cfg, w, s2, input);
    next', stopped, again := Poll(store, state, w, cfg, next', input, s2);
    if !stopped && !again {
      stopped := Wait(state, input.wake, PollPart(store.byTx, cfg, w, s2, input));
    }
  }

  /** One chain's loop over what the outside does in each turn, from resume to shutdown, error or
      the end of the script. */
  method IngestLoop(store: Store, w: World, cfg: Config, script: seq<TurnInput>)
    requires store.Valid() && WellFormed(w) && ConfigOk(cfg)
    modifies store
    ensures store.Valid()
    ensures store.Value() == Turns(store.byTx, cfg, w, Booted(cfg, Sys(old(store.Value()), Down, NO_PAST)), script).db
  {
    var c := cfg.chain;
    var next: nat := if c in store.cursors then store.cursors[c].height + 1
                     else if cfg.startBlock == 0 then 1 else cfg.startBlock;
    var state := new TipState(cfg.ws);
    var tick: nat := 0;
    ghost var s := Booted(cfg, Sys(store.Value(), Down, NO_PAST));
    for i := 0 to |script|
      invariant store.Valid() && fresh(state)
      invariant next >= 1 && s.db == store.Value() && s.process == Up(next, state.State(), tick)
      invariant Turns(store.byTx, cfg, w, Booted(cfg, Sys(old(store.Value()), Down, NO_PAST)), script)
             == Turns(store.byTx, cfg, w, s, script[i..])
    {
      assert script[i..][0] == script[i] && script[i..][1..] == script[i + 1..];
      var next', stopped := OneTurn(store, state, w, cfg, next, tick, script[i], s);
      s := Turn(store.byTx, cfg, w, s, script[i]);
      if stopped {
        return;
      }
      next, tick := next', tick + 1;
    }
  }

  /** So the loop as written never leaves a height behind its cursor, over any script whose turns
      meet the hypotheses. */
  lemma {:induction false} TurnsMissNothing(byTx: Schema, cfg: Config, w: World, s: Sys, script: seq<TurnInput>)
    requires WellFormed(w) && SchemaOk(byTx) && ConfigOk(cfg) && Inv(byTx, cfg, w, s)
    requires s.process.Up? ==> s.process.next >= 1
    requires ScriptOk(byTx, cfg, w, s, script)
    ensures Inv(byTx, cfg, w, Turns(byTx, cfg, w, s, script))
    decreases |script|
  {
    if s.process.Up? && script != [] {
      TurnKeeps(byTx, cfg, w, s, script[0]);
      TurnsMissNothing(byTx, cfg, w, Turn(byTx, cfg, w, s, script[0]), script[1..]);
    }
  }

  ghost predicate ScriptOk(byTx: Schema, cfg: Config, w: World, s: Sys, script: seq<TurnInput>)
    requires ConfigOk(cfg) && (s.process.Up? ==> s.process.next >= 1)
    decreases |script|
  {
    s.process.Up? && script != [] ==>
      && OutsideOk(byTx, cfg, w, s, script[0])
      && (TurnStaysPositive(byTx, cfg, w, s, script[0]);
          ScriptOk(byTx, cfg, w, Turn(byTx, cfg, w, s, script[0]), script[1..]))
  }
}
