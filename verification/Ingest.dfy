/** The per-chain ingest loop: subscribe, probe for a reorg, sweep a bounded window or checkpoint
    without fetching, wait. Runs of it with crashes, stream losses and restarts at any point. */
module Ingest {
  import opened Model
  import opened Plan
  import opened Chain
  import opened Drive
  import opened Database
  import opened Reorg
  import opened Tip

  const REORG_PROBE_TICKS := 16

  datatype Config = Config(
    chain: nat, confirmations: nat, startBlock: nat, step: nat, concurrency: nat, ws: bool, supportsReorg: bool,
    tables: seq<string>)

  predicate ConfigOk(cfg: Config) {
    cfg.step >= 1 && cfg.concurrency >= 1
  }

  function StartOf(cfg: Config): nat {
    if cfg.startBlock == 0 then 1 else cfg.startBlock
  }

  /** How a drive ended: every range committed, told to stop, or an error or crash. */
  datatype DriveEnd = Finished | Shutdown | Failed

  /** What the outside does to one drive: the order in which fetches complete, whether it breaks
      between the last commit and its cursor write, and how it ends. */
  datatype DriveScript = DriveScript(order: seq<nat>, torn: bool, end: DriveEnd)

  datatype Wake = Cancelled | Slept | Event(event: WsEvent)

  /** Everything the outside decides during one turn of the loop. `streamFrom` is the first height
      an accepted subscription covers; `reported` is the source's hash for the stored tip. */
  datatype TurnInput = TurnInput(
    stop: bool, accepted: bool, streamFrom: nat, reported: Option<Hash>, head: nat, drive: DriveScript, wake: Wake)

  /** The process: its loop variables, lost when it goes down. */
  datatype Process = Down | Up(next: nat, tip: Tip, tick: nat)

  /** What has happened outside in this process's life, for stating hypotheses: the last head seen,
      every height pushed, the live stream's first height and what it has delivered, the highest
      first height of streams whose sweep is still owed and of the others, and how far sweeps have
      reached. */
  datatype Past = Past(
    head: nat, pushed: set<nat>, streamFrom: nat, sent: set<nat>, owed: nat, settled: nat, swept: nat)

  const NO_PAST := Past(0, {}, 0, {}, 0, 0, 0)

  datatype Sys = Sys(db: Db, process: Process, past: Past)

  function Max(a: nat, b: nat): nat {
    if a >= b then a else b
  }

  function Safe(cfg: Config, head: nat): nat {
    if head >= cfg.confirmations then head - cfg.confirmations else 0
  }

  // ---------------------------------------------------------------- the parts of a turn

  ghost function Booted(cfg: Config, s: Sys): Sys {
    Sys(s.db, Up(Resume(s.db, cfg.chain, cfg.startBlock), NewTip(cfg.ws), 0), NO_PAST)
  }

  function GoneDown(s: Sys): Sys {
    s.(process := Down)
  }

  function SubscribePart(s: Sys, input: TurnInput): Sys
    requires s.process.Up?
  {
    if WantsStream(s.process.tip) && input.accepted then
      s.(process := s.process.(tip := Subscribed(s.process.tip)),
         past := s.past.(streamFrom := input.streamFrom, sent := {}, owed := Max(s.past.owed, input.streamFrom)))
    else s
  }

  predicate Probes(p: Process)
    requires p.Up?
  {
    p.tip.reorgAt.Some? || !p.tip.wsEnabled || (p.tick + 1) % REORG_PROBE_TICKS == 0
  }

  /** After the check: the rows as it left them, and `next` moved when it rolled back. */
  function AfterCheck(s: Sys, db: Db, reindex: Option<nat>): Sys
    requires s.process.Up?
  {
    var calm := s.process.(tip := s.process.tip.(reorgAt := None), tick := s.process.tick + 1);
    match reindex
    case None => s.(process := calm)
    case Some(from) => Sys(db, calm.(next := from, tip := calm.tip.(reconcile := true)), s.past)
  }

  ghost function ProbePart(cfg: Config, s: Sys, input: TurnInput): Sys
    requires s.process.Up?
  {
    if Probes(s.process) then
      var (db, reindex) := Checked(s.db, cfg.chain, cfg.confirmations, cfg.supportsReorg, input.reported, Named(cfg.tables));
      AfterCheck(s, db, reindex)
    else AfterCheck(s, s.db, None)
  }

  /** Indices of planned ranges, out-of-range and repeated ones dropped. */
  function Sanitized(order: seq<nat>, n: nat): (clean: seq<nat>)
    ensures Arrivals(clean, n)
    ensures forall i :: i in clean ==> i in order
  {
    if order == [] then []
    else
      var front, last := Sanitized(order[..|order| - 1], n), order[|order| - 1];
      if last < n && last !in front then front + [last] else front
  }

  function AttemptOf(w: World, c: nat, next: nat, target: nat, step: nat, drive: DriveScript): Attempt
    requires step >= 1
  {
    Attempt(target, step, Sanitized(drive.order, |Window(w, c, next, target, step)|), drive.torn && drive.end.Failed?)
  }

  /** A drive that missed a range without being told to stop has failed. */
  function EndOf(w: World, c: nat, next: nat, a: Attempt, drive: DriveScript): DriveEnd
    requires a.step >= 1
  {
    if drive.end.Finished? && !Complete(a.order, |Window(w, c, next, a.target, a.step)|) then Failed else drive.end
  }

  /** One bounded window fetched and committed. */
  ghost function SweepPart(byTx: Schema, cfg: Config, w: World, s: Sys, safe: nat, drive: DriveScript): Sys
    requires s.process.Up? && ConfigOk(cfg) && s.process.next >= 1
  {
    var next := s.process.next;
    var target := FetchTarget(safe, next, cfg.step, cfg.concurrency, true);
    var a := AttemptOf(w, cfg.chain, next, target, cfg.step, drive);
    var db := Attempted(byTx, w, cfg.chain, s.db, next, a);
    if EndOf(w, cfg.chain, next, a, drive).Finished? then
      var advancedTo := RecordedAll(Window(w, cfg.chain, next, target, cfg.step), next, a.order).advancedTo;
      var next' := if advancedTo.Some? then advancedTo.value + 1 else next;
      var tip := ClearedThrough(s.process.tip.(reconcile := next' <= safe), next' - 1);
      Sys(db, s.process.(next := next', tip := tip),
          s.past.(swept := Max(s.past.swept, next'),
                  settled := if next' <= safe then s.past.settled else Max(s.past.settled, s.past.owed),
                  owed := if next' <= safe then s.past.owed else 0))
    else Sys(db, Down, s.past)
  }

  /** The cursor moved to the safe tip with no fetch at all. */
  function CheckpointPart(cfg: Config, s: Sys, safe: nat): Sys
    requires s.process.Up?
  {
    Sys(Advanced(s.db, cfg.chain, Checkpoint(safe, [])), s.process.(next := safe + 1), s.past)
  }

  ghost function PollPart(byTx: Schema, cfg: Config, w: World, s: Sys, input: TurnInput): Sys
    requires s.process.Up? && ConfigOk(cfg) && s.process.next >= 1
  {
    if !ShouldPollHead(s.process.tip) then s
    else
      var safe := Safe(cfg, input.head);
      var seen := s.(past := s.past.(head := input.head));
      if safe < s.process.next then seen
      else if MustFetch(s.process.tip, safe) then SweepPart(byTx, cfg, w, seen, safe, input.drive)
      else CheckpointPart(cfg, seen, safe)
  }

  /** Still behind the safe tip after a sweep: take the next turn without waiting. */
  ghost predicate Behind(cfg: Config, before: Sys, after: Sys, input: TurnInput)
    requires before.process.Up? && after.process.Up?
  {
    && ShouldPollHead(before.process.tip) && Safe(cfg, input.head) >= before.process.next
    && after.process.next <= Safe(cfg, input.head)
  }

  function WakePart(s: Sys, wake: Wake): Sys
    requires s.process.Up?
  {
    match wake
    case Cancelled => GoneDown(s)
    case Slept => s
    case Event(e) =>
      if !s.process.tip.sub then s
      else
        s.(process := s.process.(tip := AfterEvent(s.process.tip, e)),
           past := if e.LogAt? then s.past.(pushed := s.past.pushed + {e.height}, sent := s.past.sent + {e.height})
                   else s.past)
  }

  ghost function Turn(byTx: Schema, cfg: Config, w: World, s: Sys, input: TurnInput): Sys
    requires ConfigOk(cfg) && s.process.Up? && s.process.next >= 1
  {
    if input.stop then GoneDown(s)
    else
      var s1 := SubscribePart(s, input);
      var s2 := ProbePart(cfg, s1, input);
      var s3 := PollPart(byTx, cfg, w, s2, input);
      if s3.process.Down? || Behind(cfg, s2, s3, input) then s3 else WakePart(s3, input.wake)
  }

  // ---------------------------------------------------------------- the invariant

  ghost predicate Matching(w: World, c: nat, h: nat) {
    w(c, h).logs != []
  }

  ghost predicate NoneMatching(w: World, c: nat, lo: nat, hi: nat) {
    forall g :: lo <= g < hi ==> !Matching(w, c, g)
  }

  /** What is known about pushed heights: each is pending or below the reach of the sweeps; a push
      implies the pushes of every earlier matching height its stream covers; and once a loop that
      follows streams owes no sweep, nothing from `next` to where sweeps have reached and streams
      have started matches. */
  ghost predicate PushesOk(cfg: Config, w: World, next: nat, tip: Tip, past: Past) {
    && tip.pending <= past.pushed
    && (forall p :: p in past.pushed ==> p in tip.pending || p < past.swept)
    && (forall p, g :: p in past.pushed && Max(past.owed, past.settled) <= g < p && Matching(w, cfg.chain, g) ==>
          g in past.pushed)
    && (tip.wsEnabled && !tip.reconcile ==> NoneMatching(w, cfg.chain, next, Max(past.owed, past.swept)))
    && (tip.wsEnabled ==> NoneMatching(w, cfg.chain, past.swept, past.settled))
    && (tip.sub ==> past.streamFrom <= Max(past.owed, past.settled) && past.sent <= past.pushed)
  }

  ghost predicate UpOk(byTx: Schema, cfg: Config, w: World, s: Sys)
    requires s.process.Up?
  {
    && s.process.next >= 1
    && AllCovered(byTx, s.db, w, cfg.chain, StartOf(cfg), s.process.next - 1)
    && (cfg.chain in s.db.cursors ==> s.process.next == s.db.cursors[cfg.chain].height + 1)
    && s.process.tip.wsEnabled == cfg.ws
    && PushesOk(cfg, w, s.process.next, s.process.tip, s.past)
  }

  /** No height is missed: every height from the start block to the cursor is fully committed. */
  ghost predicate NoMissedHeight(byTx: Schema, cfg: Config, w: World, db: Db) {
    cfg.chain in db.cursors ==> AllCovered(byTx, db, w, cfg.chain, StartOf(cfg), db.cursors[cfg.chain].height)
  }

  ghost predicate Inv(byTx: Schema, cfg: Config, w: World, s: Sys) {
    && Canonical(byTx, s.db, w)
    && NoMissedHeight(byTx, cfg, w, s.db)
    && (s.process.Up? ==> UpOk(byTx, cfg, w, s))
  }

  // ---------------------------------------------------------------- hypotheses on the outside

  /** A rollback moves the next height up only over committed heights. */
  ghost predicate RewindsSafely(byTx: Schema, cfg: Config, w: World, s: Sys, input: TurnInput)
    requires s.process.Up?
  {
    AllCovered(byTx, s.db, w, cfg.chain, Max(StartOf(cfg), s.process.next), ProbePart(cfg, s, input).process.next - 1)
  }

  /** The poll ends the sweep a loop that follows streams owed. */
  ghost predicate Settles(byTx: Schema, cfg: Config, w: World, s: Sys, input: TurnInput)
    requires s.process.Up? && ConfigOk(cfg) && s.process.next >= 1
  {
    var after := PollPart(byTx, cfg, w, s, input);
    s.process.tip.wsEnabled && s.process.tip.reconcile && after.process.Up? && !after.process.tip.reconcile
  }

  /** When the owed sweep ends, no height between it and the first heights of the streams opened for
      it matches. */
  ghost predicate StreamsStartLow(byTx: Schema, cfg: Config, w: World, s: Sys, input: TurnInput)
    requires s.process.Up? && ConfigOk(cfg) && s.process.next >= 1
  {
    Settles(byTx, cfg, w, s, input) ==>
      NoneMatching(w, cfg.chain, PollPart(byTx, cfg, w, s, input).process.next, s.past.owed)
  }

  /** When the owed sweep ends, no height between it and where earlier sweeps of this process had
      reached matches: a rolled-back height is swept again before the loop relies on its stream. */
  ghost predicate SweepsCatchUp(byTx: Schema, cfg: Config, w: World, s: Sys, input: TurnInput)
    requires s.process.Up? && ConfigOk(cfg) && s.process.next >= 1
  {
    Settles(byTx, cfg, w, s, input) ==>
      NoneMatching(w, cfg.chain, PollPart(byTx, cfg, w, s, input).process.next, s.past.swept)
  }

  /** The live stream pushes heights from its first on, none before a lower one that matches. */
  ghost predicate InOrder(cfg: Config, w: World, s: Sys, wake: Wake)
    requires s.process.Up?
  {
    wake.Event? && wake.event.LogAt? && s.process.tip.sub ==>
      && s.past.streamFrom <= wake.event.height
      && forall g :: s.past.streamFrom <= g < wake.event.height && Matching(w, cfg.chain, g) ==> g in s.past.sent
  }

  ghost predicate OutsideOk(byTx: Schema, cfg: Config, w: World, s: Sys, input: TurnInput)
    requires ConfigOk(cfg) && s.process.Up? && s.process.next >= 1
  {
    input.stop ||
    var s1 := SubscribePart(s, input);
    var s2 := ProbePart(cfg, s1, input);
    var s3 := PollPart(byTx, cfg, w, s2, input);
    && RewindsSafely(byTx, cfg, w, s1, input)
    && StreamsStartLow(byTx, cfg, w, s2, input) && SweepsCatchUp(byTx, cfg, w, s2, input)
    && (s3.process.Up? ==> InOrder(cfg, w, s3, input.wake))
  }

  // ---------------------------------------------------------------- each part keeps it

  lemma BootKeeps(byTx: Schema, cfg: Config, w: World, s: Sys)
    requires Inv(byTx, cfg, w, s)
    ensures Inv(byTx, cfg, w, Booted(cfg, s))
  {
  }

  lemma SubscribeKeeps(byTx: Schema, cfg: Config, w: World, s: Sys, input: TurnInput)
    requires s.process.Up? && Inv(byTx, cfg, w, s)
    ensures Inv(byTx, cfg, w, SubscribePart(s, input))
  {
  }

  lemma WakeKeeps(byTx: Schema, cfg: Config, w: World, s: Sys, wake: Wake)
    requires s.process.Up? && Inv(byTx, cfg, w, s) && InOrder(cfg, w, s, wake)
    ensures Inv(byTx, cfg, w, WakePart(s, wake))
  {
  }

  lemma ProbeKeeps(byTx: Schema, cfg: Config, w: World, s: Sys, input: TurnInput)
    requires WellFormed(w) && SchemaOk(byTx) && s.process.Up? && Inv(byTx, cfg, w, s)
    requires RewindsSafely(byTx, cfg, w, s, input)
    ensures Inv(byTx, cfg, w, ProbePart(cfg, s, input))
  {
    var c, tables := cfg.chain, Named(cfg.tables);
    var (db, reindex) := Checked(s.db, c, cfg.confirmations, cfg.supportsReorg, input.reported, tables);
    if Probes(s.process) && reindex.Some? {
      var from := reindex.value;
      assert db == RolledBack(s.db, c, from, tables);
      RollbackKeepsCanonical(byTx, s.db, w, c, from, tables);
      RollbackKeepsAllCovered(byTx, s.db, w, c, from, tables, StartOf(cfg), from - 1);
    }
  }

  /** A probe that finds a mismatch rolls back to the fork and moves the loop there. */
  lemma FiredProbe(cfg: Config, s: Sys, input: TurnInput, tip: nat)
    requires s.process.Up? && Probes(s.process) && cfg.supportsReorg && Mismatch(s.db, cfg.chain, tip, input.reported)
    ensures var from := ForkOf(tip, cfg.confirmations) + 1;
            ProbePart(cfg, s, input) == AfterCheck(s, RolledBack(s.db, cfg.chain, from, Named(cfg.tables)), Some(from))
  {
    assert forall t :: Mismatch(s.db, cfg.chain, t, input.reported) ==> t == tip;
  }

  /** When a turn may checkpoint without fetching, no matching height lies in the gap: it would
      have been pushed before the height still pending above it, and would itself be pending. */
  lemma NothingSkipped(cfg: Config, w: World, next: nat, tip: Tip, past: Past, safe: nat)
    requires PushesOk(cfg, w, next, tip, past) && ShouldPollHead(tip) && !MustFetch(tip, safe)
    ensures exists p :: p in tip.pending && p > safe
    ensures forall g :: next <= g <= safe ==> !Matching(w, cfg.chain, g) && (past.swept <= next ==> g !in past.pushed)
  {
  }

  lemma EmptyHeightsAreCovered(byTx: Schema, db: Db, w: World, c: nat, lo: nat, hi: nat)
    requires WellFormed(w) && forall g :: lo <= g <= hi ==> !Matching(w, c, g)
    ensures AllCovered(byTx, db, w, c, lo, hi)
  {
    forall h: nat | lo <= h <= hi
      ensures Covers(byTx, db, w, c, h)
    {
      assert !Matching(w, c, h);
      assert BlockOk(w(c, h), c, h);
    }
  }

  lemma CheckpointKeeps(byTx: Schema, cfg: Config, w: World, s: Sys, safe: nat)
    requires WellFormed(w) && s.process.Up? && Inv(byTx, cfg, w, s) && s.process.next <= safe
    requires ShouldPollHead(s.process.tip) && !MustFetch(s.process.tip, safe)
    ensures Inv(byTx, cfg, w, CheckpointPart(cfg, s, safe))
  {
    var c, next := cfg.chain, s.process.next;
    NothingSkipped(cfg, w, next, s.process.tip, s.past, safe);
    EmptyHeightsAreCovered(byTx, s.db, w, c, next, safe);
    var s' := CheckpointPart(cfg, s, safe);
    CoverageGrows(byTx, s.db, s'.db, w, c, StartOf(cfg), next - 1);
    CoverageGrows(byTx, s.db, s'.db, w, c, next, safe);
  }

  /** The rows and cursor a sweep leaves, however it ended. */
  lemma SweptRows(byTx: Schema, cfg: Config, w: World, s: Sys, safe: nat, drive: DriveScript)
    requires WellFormed(w) && SchemaOk(byTx) && ConfigOk(cfg) && s.process.Up? && Inv(byTx, cfg, w, s)
    requires s.process.next <= safe
    ensures var s' := SweepPart(byTx, cfg, w, s, safe, drive);
            && Canonical(byTx, s'.db, w)
            && NoMissedHeight(byTx, cfg, w, s'.db)
            && (s'.process.Up? ==>
                  && s.process.next < s'.process.next <= safe + 1
                  && cfg.chain in s'.db.cursors && s'.process.next == s'.db.cursors[cfg.chain].height + 1)
  {
    var c, next := cfg.chain, s.process.next;
    var target := FetchTarget(safe, next, cfg.step, cfg.concurrency, true);
    WindowFitsPipeline(safe, next, cfg.step, cfg.concurrency);
    var a := AttemptOf(w, c, next, target, cfg.step, drive);
    AttemptIsSound(byTx, w, c, s.db, next, a);
    var s' := SweepPart(byTx, cfg, w, s, safe, drive);
    CoverageGrows(byTx, s.db, s'.db, w, c, StartOf(cfg), next - 1);
    if s'.process.Up? {
      DrivenAttempt(byTx, w, c, s.db, next, target, cfg.step, a.order);
      DrivenTracks(byTx, w, c, s.db, Window(w, c, next, target, cfg.step), next, a.order);
    }
  }

  lemma SweepKeepsPushes(cfg: Config, w: World, next: nat, tip: Tip, past: Past, next': nat, safe: nat)
    requires PushesOk(cfg, w, next, tip, past) && next <= next' <= safe + 1 && next' >= 1
    requires next' > safe && tip.wsEnabled && tip.reconcile ==> NoneMatching(w, cfg.chain, next', Max(past.owed, past.swept))
    ensures var settles := next' > safe;
            PushesOk(cfg, w, next', ClearedThrough(tip.(reconcile := !settles), next' - 1),
                     past.(swept := Max(past.swept, next'),
                           settled := if settles then Max(past.settled, past.owed) else past.settled,
                           owed := if settles then 0 else past.owed))
  {
  }

  lemma SweepKeeps(byTx: Schema, cfg: Config, w: World, s: Sys, safe: nat, drive: DriveScript)
    requires WellFormed(w) && SchemaOk(byTx) && ConfigOk(cfg) && s.process.Up? && Inv(byTx, cfg, w, s)
    requires s.process.next <= safe
    requires var after := SweepPart(byTx, cfg, w, s, safe, drive);
             after.process.Up? && s.process.tip.wsEnabled && s.process.tip.reconcile && !after.process.tip.reconcile ==>
               NoneMatching(w, cfg.chain, after.process.next, Max(s.past.owed, s.past.swept))
    ensures Inv(byTx, cfg, w, SweepPart(byTx, cfg, w, s, safe, drive))
  {
    SweptRows(byTx, cfg, w, s, safe, drive);
    var s' := SweepPart(byTx, cfg, w, s, safe, drive);
    if s'.process.Up? {
      SweepKeepsPushes(cfg, w, s.process.next, s.process.tip, s.past, s'.process.next, safe);
    }
  }

  lemma PollKeeps(byTx: Schema, cfg: Config, w: World, s: Sys, input: TurnInput)
    requires WellFormed(w) && SchemaOk(byTx) && ConfigOk(cfg) && s.process.Up? && Inv(byTx, cfg, w, s)
    requires StreamsStartLow(byTx, cfg, w, s, input) && SweepsCatchUp(byTx, cfg, w, s, input)
    ensures Inv(byTx, cfg, w, PollPart(byTx, cfg, w, s, input))
  {
    if ShouldPollHead(s.process.tip) {
      var safe := Safe(cfg, input.head);
      var seen := s.(past := s.past.(head := input.head));
      assert PushesOk(cfg, w, seen.process.next, seen.process.tip, seen.past);
      if safe < s.process.next {
      } else if MustFetch(s.process.tip, safe) {
        SweepKeeps(byTx, cfg, w, seen, safe, input.drive);
      } else {
        CheckpointKeeps(byTx, cfg, w, seen, safe);
      }
    }
  }

  lemma TurnKeeps(byTx: Schema, cfg: Config, w: World, s: Sys, input: TurnInput)
    requires WellFormed(w) && SchemaOk(byTx) && ConfigOk(cfg) && s.process.Up? && Inv(byTx, cfg, w, s)
    requires OutsideOk(byTx, cfg, w, s, input)
    ensures Inv(byTx, cfg, w, Turn(byTx, cfg, w, s, input))
  {
    if !input.stop {
      var s1 := SubscribePart(s, input);
      SubscribeKeeps(byTx, cfg, w, s, input);
      var s2 := ProbePart(cfg, s1, input);
      ProbeKeeps(byTx, cfg, w, s1, input);
      var s3 := PollPart(byTx, cfg, w, s2, input);
      PollKeeps(byTx, cfg, w, s2, input);
      if s3.process.Up? && !Behind(cfg, s2, s3, input) {
        WakeKeeps(byTx, cfg, w, s3, input.wake);
      }
    }
  }

  // ---------------------------------------------------------------- runs

  /** How far a turn got before the process died or an error ended it. */
  datatype Stage = AtSubscribe | AtProbe | AtPoll

  /** A restart, a whole turn, or a turn cut short. */
  datatype LoopStep = Boot | Take(input: TurnInput) | Die(input: TurnInput, stage: Stage)

  /** The step gets as far as the reorg check, or as the head poll. */
  predicate Checks(step: LoopStep) {
    !step.Boot? && if step.Take? then !step.input.stop else step.stage != AtSubscribe
  }

  predicate Polls(step: LoopStep) {
    !step.Boot? && if step.Take? then !step.input.stop else step.stage == AtPoll
  }

  predicate Enabled(s: Sys, step: LoopStep) {
    if step.Boot? then s.process.Down? else s.process.Up? && s.process.next >= 1
  }

  /** The state in which a turn polls the head. */
  ghost function AtHeadPoll(cfg: Config, s: Sys, input: TurnInput): (s': Sys)
    requires s.process.Up?
    ensures s'.process.Up? && (s.process.next >= 1 ==> s'.process.next >= 1)
  {
    ProbePart(cfg, SubscribePart(s, input), input)
  }

  // The four hypotheses, each for one step.

  ghost predicate RewindsOk(byTx: Schema, cfg: Config, w: World, s: Sys, step: LoopStep)
    requires Enabled(s, step)
  {
    Checks(step) ==> RewindsSafely(byTx, cfg, w, SubscribePart(s, step.input), step.input)
  }

  ghost predicate StartsLow(byTx: Schema, cfg: Config, w: World, s: Sys, step: LoopStep)
    requires ConfigOk(cfg) && Enabled(s, step)
  {
    Polls(step) ==> StreamsStartLow(byTx, cfg, w, AtHeadPoll(cfg, s, step.input), step.input)
  }

  ghost predicate PushesInOrder(byTx: Schema, cfg: Config, w: World, s: Sys, step: LoopStep)
    requires ConfigOk(cfg) && Enabled(s, step)
  {
    step.Take? && Polls(step) ==>
      var polled := PollPart(byTx, cfg, w, AtHeadPoll(cfg, s, step.input), step.input);
      polled.process.Up? ==> InOrder(cfg, w, polled, step.input.wake)
  }

  ghost predicate CatchesUp(byTx: Schema, cfg: Config, w: World, s: Sys, step: LoopStep)
    requires ConfigOk(cfg) && Enabled(s, step)
  {
    Polls(step) ==> SweepsCatchUp(byTx, cfg, w, AtHeadPoll(cfg, s, step.input), step.input)
  }

  ghost predicate StepOk(byTx: Schema, cfg: Config, w: World, s: Sys, step: LoopStep)
    requires ConfigOk(cfg)
  {
    && Enabled(s, step)
    && RewindsOk(byTx, cfg, w, s, step) && StartsLow(byTx, cfg, w, s, step)
    && PushesInOrder(byTx, cfg, w, s, step) && CatchesUp(byTx, cfg, w, s, step)
  }

  ghost function StepTo(byTx: Schema, cfg: Config, w: World, s: Sys, step: LoopStep): Sys
    requires ConfigOk(cfg) && Enabled(s, step)
  {
    match step
    case Boot => Booted(cfg, s)
    case Take(input) => Turn(byTx, cfg, w, s, input)
    case Die(input, stage) =>
      var s1 := SubscribePart(s, input);
      var s2 := ProbePart(cfg, s1, input);
      GoneDown(match stage
               case AtSubscribe => s1
               case AtProbe => s2
               case AtPoll => PollPart(byTx, cfg, w, s2, input))
  }

  lemma StepKeeps(byTx: Schema, cfg: Config, w: World, s: Sys, step: LoopStep)
    requires WellFormed(w) && SchemaOk(byTx) && ConfigOk(cfg) && Inv(byTx, cfg, w, s) && StepOk(byTx, cfg, w, s, step)
    ensures Inv(byTx, cfg, w, StepTo(byTx, cfg, w, s, step))
  {
    match step {
      case Boot => BootKeeps(byTx, cfg, w, s);
      case Take(input) => TurnKeeps(byTx, cfg, w, s, input);
      case Die(input, stage) =>
        SubscribeKeeps(byTx, cfg, w, s, input);
        if stage != AtSubscribe {
          ProbeKeeps(byTx, cfg, w, SubscribePart(s, input), input);
        }
        if stage == AtPoll {
          PollKeeps(byTx, cfg, w, ProbePart(cfg, SubscribePart(s, input), input), input);
        }
    }
  }

  /** The step may happen and leads from one state to the other. */
  ghost predicate Leads(byTx: Schema, cfg: Config, w: World, s: Sys, step: LoopStep, s': Sys)
    requires ConfigOk(cfg)
  {
    StepOk(byTx, cfg, w, s, step) && s' == StepTo(byTx, cfg, w, s, step)
  }

  lemma NextKeeps(byTx: Schema, cfg: Config, w: World, s: Sys, step: LoopStep, s': Sys)
    requires WellFormed(w) && SchemaOk(byTx) && ConfigOk(cfg) && Inv(byTx, cfg, w, s) && Leads(byTx, cfg, w, s, step, s')
    ensures Inv(byTx, cfg, w, s')
  {
    StepKeeps(byTx, cfg, w, s, step);
  }

  /** A run from a process that is down, with the state before each step and the final one. */
  ghost predicate LoopRun(byTx: Schema, cfg: Config, w: World, db: Db, states: seq<Sys>, steps: seq<LoopStep>)
    requires ConfigOk(cfg)
  {
    && |states| == |steps| + 1 && states[0] == Sys(db, Down, NO_PAST)
    && forall k {:trigger steps[k]} :: 0 <= k < |steps| ==> Leads(byTx, cfg, w, states[k], steps[k], states[k + 1])
  }

  lemma RunStepKeeps(byTx: Schema, cfg: Config, w: World, db: Db, states: seq<Sys>, steps: seq<LoopStep>, j: nat, k: nat)
    requires WellFormed(w) && SchemaOk(byTx) && ConfigOk(cfg) && LoopRun(byTx, cfg, w, db, states, steps) && j + 1 == k <= |steps|
    requires Inv(byTx, cfg, w, states[j])
    ensures Inv(byTx, cfg, w, states[k])
  {
    NextKeeps(byTx, cfg, w, states[j], steps[j], states[k]);
  }

  lemma LoopRunKeepsInv(
    byTx: Schema, cfg: Config, w: World, db: Db, states: seq<Sys>, steps: seq<LoopStep>, k: nat)
    requires WellFormed(w) && SchemaOk(byTx) && ConfigOk(cfg) && LoopRun(byTx, cfg, w, db, states, steps) && k <= |steps|
    requires Canonical(byTx, db, w) && NoMissedHeight(byTx, cfg, w, db)
    ensures Inv(byTx, cfg, w, states[k])
  {
    var holds := (s: Sys) => Inv(byTx, cfg, w, s);
    forall i, j | 0 <= i && j == i + 1 && j < |states| && holds(states[i])
      ensures holds(states[j])
    {
      RunStepKeeps(byTx, cfg, w, db, states, steps, i, j);
    }
    AllAlong(holds, states, k);
  }

  /** In every run of the loop over a fixed chain, with any subscriptions, stream losses, pushed
      logs, bounded sweeps, no-fetch checkpoints, crashes and restarts, every height from the start
      block to the cursor has its records, block and transaction rows committed. */
  lemma NoHeightIsEverMissed(
    byTx: Schema, cfg: Config, w: World, db: Db, states: seq<Sys>, steps: seq<LoopStep>, k: nat, h: nat)
    requires WellFormed(w) && SchemaOk(byTx) && ConfigOk(cfg) && LoopRun(byTx, cfg, w, db, states, steps) && k <= |steps|
    requires Canonical(byTx, db, w) && NoMissedHeight(byTx, cfg, w, db)
    requires cfg.chain in states[k].db.cursors && StartOf(cfg) <= h <= states[k].db.cursors[cfg.chain].height
    ensures Covers(byTx, states[k].db, w, cfg.chain, h)
  {
    LoopRunKeepsInv(byTx, cfg, w, db, states, steps, k);
  }

  /** A no-fetch checkpoint only ever happens below a height that is still pending, and passes no
      pushed height that a sweep has not covered. */
  lemma CheckpointPassesNoPush(
    byTx: Schema, cfg: Config, w: World, db: Db, states: seq<Sys>, steps: seq<LoopStep>, k: nat, safe: nat)
    requires WellFormed(w) && SchemaOk(byTx) && ConfigOk(cfg) && LoopRun(byTx, cfg, w, db, states, steps) && k <= |steps|
    requires Canonical(byTx, db, w) && NoMissedHeight(byTx, cfg, w, db)
    requires states[k].process.Up? && ShouldPollHead(states[k].process.tip) && !MustFetch(states[k].process.tip, safe)
    ensures exists p :: p in states[k].process.tip.pending && p > safe
    ensures forall p :: p in states[k].past.pushed && p <= safe ==>
              && (Matching(w, cfg.chain, p) || states[k].past.swept <= states[k].process.next ==> p < states[k].process.next)
              && (p >= StartOf(cfg) ==> Covers(byTx, states[k].db, w, cfg.chain, p))
  {
    LoopRunKeepsInv(byTx, cfg, w, db, states, steps, k);
    var s := states[k];
    NothingSkipped(cfg, w, s.process.next, s.process.tip, s.past, safe);
    forall p | p in s.past.pushed && p <= safe && p >= StartOf(cfg)
      ensures Covers(byTx, s.db, w, cfg.chain, p)
    {
      if p >= s.process.next {
        EmptyHeightsAreCovered(byTx, s.db, w, cfg.chain, p, p);
      }
    }
  }
}
