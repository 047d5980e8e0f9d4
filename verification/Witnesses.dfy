/** Runs of the ingest loop from an empty database that miss a height. For each hypothesis on the
    outside there is one that meets all the others. */
module Witnesses {
  import opened Model
  import opened Plan
  import opened Chain
  import opened Drive
  import opened Database
  import opened Reorg
  import opened Tip
  import opened Ingest
  import opened Limits

  /** What the loop's guarantee asks of the outside. */
  datatype Hypothesis = SafeRewinds | LowStarts | OrderedPushes | CaughtUp

  /** The step leads from one state to the other and meets every hypothesis but one. */
  ghost predicate LeadsBut(broken: Hypothesis, byTx: Schema, cfg: Config, w: World, s: Sys, step: LoopStep, s': Sys)
    requires ConfigOk(cfg)
  {
    && Enabled(s, step) && s' == StepTo(byTx, cfg, w, s, step)
    && (broken.SafeRewinds? || RewindsOk(byTx, cfg, w, s, step))
    && (broken.LowStarts? || StartsLow(byTx, cfg, w, s, step))
    && (broken.OrderedPushes? || PushesInOrder(byTx, cfg, w, s, step))
    && (broken.CaughtUp? || CatchesUp(byTx, cfg, w, s, step))
  }

  /** A run from the empty database that meets every hypothesis but one. */
  ghost predicate RunBut(broken: Hypothesis, byTx: Schema, cfg: Config, w: World, states: seq<Sys>, steps: seq<LoopStep>)
    requires ConfigOk(cfg)
  {
    && |states| == |steps| + 1 && states[0] == Sys(EMPTY_DB, Down, NO_PAST)
    && forall k {:trigger steps[k]} :: 0 <= k < |steps| ==> LeadsBut(broken, byTx, cfg, w, states[k], steps[k], states[k + 1])
  }

  /** The cursor has passed height `h` and something of it is not committed. */
  ghost predicate Misses(byTx: Schema, cfg: Config, w: World, db: Db, h: nat) {
    && cfg.chain in db.cursors && StartOf(cfg) <= h <= db.cursors[cfg.chain].height
    && !Covers(byTx, db, w, cfg.chain, h)
  }

  lemma Extend(broken: Hypothesis, byTx: Schema, cfg: Config, w: World, states: seq<Sys>, steps: seq<LoopStep>, step: LoopStep, s': Sys)
    returns (states': seq<Sys>, steps': seq<LoopStep>)
    requires ConfigOk(cfg) && RunBut(broken, byTx, cfg, w, states, steps)
    requires LeadsBut(broken, byTx, cfg, w, states[|steps|], step, s')
    ensures RunBut(broken, byTx, cfg, w, states', steps') && states'[|steps'|] == s'
  {
    states', steps' := states + [s'], steps + [step];
  }

  function Fresh(cfg: Config): Sys {
    Sys(EMPTY_DB, Up(StartOf(cfg), NewTip(cfg.ws), 0), NO_PAST)
  }

  lemma FirstBoot(broken: Hypothesis, byTx: Schema, cfg: Config, w: World) returns (states: seq<Sys>, steps: seq<LoopStep>)
    requires ConfigOk(cfg)
    ensures RunBut(broken, byTx, cfg, w, states, steps) && states[|steps|] == Fresh(cfg)
  {
    states, steps := [Sys(EMPTY_DB, Down, NO_PAST), Fresh(cfg)], [Boot];
  }

  // ---------------------------------------------------------------- turns

  lemma NothingToProbe(cfg: Config, s: Sys, input: TurnInput)
    requires s.process.Up? && (s.db.blocks == map[] || input.reported.None?)
    ensures ProbePart(cfg, s, input) == AfterCheck(s, s.db, None)
  {
    assert forall t :: !Mismatch(s.db, cfg.chain, t, input.reported);
  }

  /** From `next` the safe tip is within one window, and the drive sees every range of it. */
  ghost predicate SweepsAll(cfg: Config, w: World, next: nat, input: TurnInput)
    requires ConfigOk(cfg) && next >= 1
  {
    var safe := Safe(cfg, input.head);
    var n := |Window(w, cfg.chain, next, safe, cfg.step)|;
    && next <= safe == FetchTarget(safe, next, cfg.step, cfg.concurrency, true)
    && input.drive.end.Finished? && Complete(Sanitized(input.drive.order, n), n)
  }

  /** A poll that sweeps to the safe tip. */
  lemma FullSweep(byTx: Schema, cfg: Config, w: World, s: Sys, input: TurnInput, safe: nat, swept: Sys)
    requires WellFormed(w) && SchemaOk(byTx) && ConfigOk(cfg) && Canonical(byTx, s.db, w)
    requires s.process.Up? && s.process.next >= 1 && s.process.tip.reconcile && SweepsAll(cfg, w, s.process.next, input)
    requires swept == PollPart(byTx, cfg, w, s, input) && safe == Safe(cfg, input.head)
    ensures swept.process == s.process.(next := safe + 1, tip := ClearedThrough(s.process.tip.(reconcile := false), safe))
    ensures swept.past == s.past.(head := input.head, swept := Max(s.past.swept, safe + 1),
                                  settled := Max(s.past.settled, s.past.owed), owed := 0)
    ensures SweptRange(byTx, w, cfg.chain, s.db, swept.db, s.process.next, safe)
  {
    var next := s.process.next;
    var tiles := Window(w, cfg.chain, next, safe, cfg.step);
    var order := Sanitized(input.drive.order, |tiles|);
    var d := Driven(byTx, w, cfg.chain, s.db, tiles, next, order);
    FullDrive(byTx, w, cfg.chain, s.db, next, safe, cfg.step, order, d);
    assert AttemptOf(w, cfg.chain, next, safe, cfg.step, input.drive) == Attempt(safe, cfg.step, order, false);
  }

  /** A turn whose poll sweeps to the safe tip, and what the hypotheses ask of it. */
  lemma SweepTurn(byTx: Schema, cfg: Config, w: World, s: Sys, input: TurnInput, safe: nat, s2: Sys, swept: Sys)
    requires WellFormed(w) && SchemaOk(byTx) && ConfigOk(cfg) && s.process.Up? && s.process.next >= 1 && !input.stop
    requires s2 == AtHeadPoll(cfg, s, input) && Canonical(byTx, s2.db, w)
    requires s2.process.tip.reconcile && SweepsAll(cfg, w, s2.process.next, input) && safe == Safe(cfg, input.head)
    requires swept == PollPart(byTx, cfg, w, s2, input)
    ensures swept.process == s2.process.(next := safe + 1, tip := ClearedThrough(s2.process.tip.(reconcile := false), safe))
    ensures swept.past == s2.past.(head := input.head, swept := Max(s2.past.swept, safe + 1),
                                   settled := Max(s2.past.settled, s2.past.owed), owed := 0)
    ensures SweptRange(byTx, w, cfg.chain, s2.db, swept.db, s2.process.next, safe)
    ensures Turn(byTx, cfg, w, s, input) == WakePart(swept, input.wake)
    ensures s2.process.next <= s.process.next ==> RewindsOk(byTx, cfg, w, s, Take(input))
    ensures NoneMatching(w, cfg.chain, safe + 1, s2.past.owed) ==> StartsLow(byTx, cfg, w, s, Take(input))
    ensures NoneMatching(w, cfg.chain, safe + 1, s2.past.swept) ==> CatchesUp(byTx, cfg, w, s, Take(input))
    ensures InOrder(cfg, w, swept, input.wake) ==> PushesInOrder(byTx, cfg, w, s, Take(input))
  {
    FullSweep(byTx, cfg, w, s2, input, safe, swept);
  }

  /** A height nothing is stored of stays uncommitted while the database grows elsewhere. */
  lemma StaysUncommitted(byTx: Schema, w: World, db: Db, db': Db, c: nat, lo: nat, hi: int, g: nat)
    requires WellFormed(w) && GrewWithin(db, db', c, lo, hi) && !(lo <= g <= hi) && Matching(w, c, g)
    requires forall k :: k in db.raw && k.chain == c ==> k.height != g
    ensures !Covers(byTx, db', w, c, g)
  {
    var r := w(c, g).logs[0];
    assert BlockOk(w(c, g), c, g);
    assert r in w(c, g).logs && r.Pos() !in db'.raw;
  }

  /** A turn that finds only height `p` pending, above the safe tip, moves the cursor there. It meets
      every hypothesis. */
  lemma JumpTurn(byTx: Schema, cfg: Config, w: World, s: Sys, input: TurnInput, p: nat, g: nat)
    requires ConfigOk(cfg) && s.process.Up? && s.process.tip.wsEnabled && s.process.tip.sub && !s.process.tip.reconcile
    requires s.process.tip.pending == {p} && !input.stop && input.reported.None? && input.wake == Slept
    requires 1 <= s.process.next <= g <= Safe(cfg, input.head) < p && StartOf(cfg) <= g
    requires !Covers(byTx, s.db, w, cfg.chain, g)
    ensures var s' := Turn(byTx, cfg, w, s, input);
            && StepOk(byTx, cfg, w, s, Take(input))
            && Misses(byTx, cfg, w, s'.db, g) && s'.db.cursors[cfg.chain].height == Safe(cfg, input.head)
  {
    NothingToProbe(cfg, s, input);
    var s2 := AfterCheck(s, s.db, None);
    assert AtHeadPoll(cfg, s, input) == s2;
    var safe := Safe(cfg, input.head);
    assert PollPart(byTx, cfg, w, s2, input) == CheckpointPart(cfg, s2.(past := s2.past.(head := input.head)), safe);
    var db' := Advanced(s.db, cfg.chain, Checkpoint(safe, []));
    assert Turn(byTx, cfg, w, s, input).db == db';
    if Covers(byTx, db', w, cfg.chain, g) {
      assert Covers(byTx, s.db, w, cfg.chain, g);
    }
  }

  // ---------------------------------------------------------------- a stream that starts late or is out of order

  /** The first turn of a fresh loop: subscribed, swept to the safe tip, then a push of `p`. */
  ghost predicate SweptOnce(byTx: Schema, cfg: Config, w: World, one: TurnInput, p: nat, s: Sys) {
    var safe := Safe(cfg, one.head);
    && s.process == Up(safe + 1, Tip(true, true, {p}, false, None), 1)
    && s.past == Past(one.head, {p}, one.streamFrom, {p}, 0, one.streamFrom, safe + 1)
    && GrewWithin(EMPTY_DB, s.db, cfg.chain, StartOf(cfg), safe)
  }

  /** The state a fresh loop polls in once it has subscribed. */
  ghost predicate Opened(cfg: Config, one: TurnInput, s: Sys) {
    s == Sys(EMPTY_DB, Up(StartOf(cfg), Tip(true, true, {}, true, None), 1), Past(0, {}, one.streamFrom, {}, one.streamFrom, 0, 0))
  }

  lemma FreshOpens(cfg: Config, one: TurnInput)
    requires cfg.ws && one.accepted
    ensures Opened(cfg, one, AtHeadPoll(cfg, Fresh(cfg), one))
  {
    NothingToProbe(cfg, SubscribePart(Fresh(cfg), one), one);
  }

  lemma PushAfterSweep(byTx: Schema, cfg: Config, w: World, one: TurnInput, p: nat, safe: nat, swept: Sys)
    requires safe == Safe(cfg, one.head)
    requires swept.process == Up(safe + 1, ClearedThrough(Tip(true, true, {}, false, None), safe), 1)
    requires swept.past == Past(one.head, {}, one.streamFrom, {}, 0, one.streamFrom, safe + 1)
    requires GrewWithin(EMPTY_DB, swept.db, cfg.chain, StartOf(cfg), safe)
    ensures SweptOnce(byTx, cfg, w, one, p, WakePart(swept, Event(LogAt(p))))
    ensures one.streamFrom <= p && NoneMatching(w, cfg.chain, one.streamFrom, p) ==> InOrder(cfg, w, swept, Event(LogAt(p)))
  {
    assert swept.process.tip.pending == {};
    assert swept.process.tip.pending + {p} == {p};
  }

  lemma FirstTurn(byTx: Schema, cfg: Config, w: World, one: TurnInput, p: nat, s': Sys)
    requires WellFormed(w) && SchemaOk(byTx) && ConfigOk(cfg) && cfg.ws && !one.stop && one.accepted
    requires SweepsAll(cfg, w, StartOf(cfg), one) && one.wake == Event(LogAt(p))
    requires s' == Turn(byTx, cfg, w, Fresh(cfg), one)
    ensures SweptOnce(byTx, cfg, w, one, p, s')
    ensures RewindsOk(byTx, cfg, w, Fresh(cfg), Take(one)) && CatchesUp(byTx, cfg, w, Fresh(cfg), Take(one))
    ensures NoneMatching(w, cfg.chain, Safe(cfg, one.head) + 1, one.streamFrom) ==> StartsLow(byTx, cfg, w, Fresh(cfg), Take(one))
    ensures one.streamFrom <= p && NoneMatching(w, cfg.chain, one.streamFrom, p) ==>
              PushesInOrder(byTx, cfg, w, Fresh(cfg), Take(one))
  {
    FreshOpens(cfg, one);
    var s2 := AtHeadPoll(cfg, Fresh(cfg), one);
    var safe, swept := Safe(cfg, one.head), PollPart(byTx, cfg, w, s2, one);
    SweepTurn(byTx, cfg, w, Fresh(cfg), one, safe, s2, swept);
    PushAfterSweep(byTx, cfg, w, one, p, safe, swept);
  }

  /** From an empty database: the first turn sweeps and its stream pushes `p`; the next poll moves the
      cursor over a matching height `g` the sweep did not reach. The stream started above `g`, or
      pushed `p` before it. */
  lemma SkippingRun(broken: Hypothesis, byTx: Schema, cfg: Config, w: World, one: TurnInput, two: TurnInput, g: nat, p: nat)
    returns (states: seq<Sys>, steps: seq<LoopStep>)
    requires WellFormed(w) && SchemaOk(byTx) && ConfigOk(cfg) && cfg.ws && !one.stop && one.accepted
    requires SweepsAll(cfg, w, StartOf(cfg), one) && one.wake == Event(LogAt(p))
    requires !two.stop && two.reported.None? && two.wake == Slept
    requires Safe(cfg, one.head) < g <= Safe(cfg, two.head) < p && Matching(w, cfg.chain, g)
    requires broken.LowStarts? || NoneMatching(w, cfg.chain, Safe(cfg, one.head) + 1, one.streamFrom)
    requires broken.OrderedPushes? || (one.streamFrom <= p && NoneMatching(w, cfg.chain, one.streamFrom, p))
    ensures RunBut(broken, byTx, cfg, w, states, steps) && Misses(byTx, cfg, w, states[|steps|].db, g)
  {
    states, steps := FirstBoot(broken, byTx, cfg, w);
    var s1 := Turn(byTx, cfg, w, Fresh(cfg), one);
    FirstTurn(byTx, cfg, w, one, p, s1);
    states, steps := Extend(broken, byTx, cfg, w, states, steps, Take(one), s1);
    StaysUncommitted(byTx, w, EMPTY_DB, s1.db, cfg.chain, StartOf(cfg), Safe(cfg, one.head), g);
    JumpTurn(byTx, cfg, w, s1, two, p, g);
    states, steps := Extend(broken, byTx, cfg, w, states, steps, Take(two), Turn(byTx, cfg, w, s1, two));
  }

  /** A world with one log at each height where `on` holds. */
  function Logging(on: nat -> bool): World {
    (c: nat, h: nat) =>
      Block(BlockMeta(c, h, [], [], 0),
            if on(h) then [RawRecord(c, h, 0, [], [], [], [], [], 0, None)] else [], [])
  }

  lemma LoggingIsWellFormed(on: nat -> bool)
    ensures WellFormed(Logging(on))
    ensures forall c, h :: Matching(Logging(on), c, h) <==> on(h)
  {
    var w := Logging(on);
    forall c, h
      ensures BlockOk(w(c, h), c, h)
    {
    }
  }

  function LogsAtTwo(a: nat, b: nat): World {
    Logging((h: nat) => h == a || h == b)
  }

  /** A drive over a window of one range that sees it is complete. */
  lemma OneRangeCompletes(order: seq<nat>)
    requires order == [0]
    ensures Sanitized(order, 1) == [0] && Complete(Sanitized(order, 1), 1)
  {
    assert order[..0] == [];
    assert Sanitized([], 1) == [];
  }

  lemma OneRangeSweeps(cfg: Config, w: World, next: nat, input: TurnInput)
    requires ConfigOk(cfg) && 1 <= next <= Safe(cfg, input.head) < next + cfg.step
    requires input.drive.order == [0] && input.drive.end.Finished?
    ensures SweepsAll(cfg, w, next, input)
  {
    var safe := Safe(cfg, input.head);
    assert PlannedSpans(safe + 1, safe, cfg.step) == [];
    MulMonotone(1, cfg.concurrency, cfg.step);
    OneRangeCompletes(input.drive.order);
  }

  const WS_CONFIG := Config(0, 1, 0, 10, 1, true, true, [])

  /** Subscribes with a stream from `streamFrom`, sweeps to 2, is pushed 6. */
  function SweepThenPush(streamFrom: nat): TurnInput {
    TurnInput(false, true, streamFrom, None, 3, DriveScript([0], false, Finished), Event(LogAt(6)))
  }

  function Polling(head: nat): TurnInput {
    TurnInput(false, true, 0, None, head, DriveScript([], false, Finished), Slept)
  }

  /** One confirmation, logs at heights 3 and 6. The first sweep ends at 2, the stream starts at 5 and
      pushes 6, in order, and head 5 moves the cursor to 4 over the uncommitted 3. */
  lemma LateStreamWitness(byTx: Schema) returns (states: seq<Sys>, steps: seq<LoopStep>)
    requires SchemaOk(byTx)
    ensures RunBut(LowStarts, byTx, WS_CONFIG, LogsAtTwo(3, 6), states, steps)
    ensures Misses(byTx, WS_CONFIG, LogsAtTwo(3, 6), states[|steps|].db, 3)
  {
    LoggingIsWellFormed((h: nat) => h == 3 || h == 6);
    OneRangeSweeps(WS_CONFIG, LogsAtTwo(3, 6), 1, SweepThenPush(5));
    states, steps := SkippingRun(LowStarts, byTx, WS_CONFIG, LogsAtTwo(3, 6), SweepThenPush(5), Polling(5), 3, 6);
  }

  /** The same with a stream from 3, in time for height 3, that pushes 6 first. */
  lemma OutOfOrderWitness(byTx: Schema) returns (states: seq<Sys>, steps: seq<LoopStep>)
    requires SchemaOk(byTx)
    ensures RunBut(OrderedPushes, byTx, WS_CONFIG, LogsAtTwo(3, 6), states, steps)
    ensures Misses(byTx, WS_CONFIG, LogsAtTwo(3, 6), states[|steps|].db, 3)
  {
    LoggingIsWellFormed((h: nat) => h == 3 || h == 6);
    OneRangeSweeps(WS_CONFIG, LogsAtTwo(3, 6), 1, SweepThenPush(3));
    states, steps := SkippingRun(OrderedPushes, byTx, WS_CONFIG, LogsAtTwo(3, 6), SweepThenPush(3), Polling(5), 3, 6);
  }

  // ---------------------------------------------------------------- a rollback, then a lower head

  /** The state in which a loop polls after a check that fired on a removal signal. */
  lemma RewoundState(byTx: Schema, cfg: Config, w: World, s: Sys, input: TurnInput, tip: nat, from: nat, s2: Sys)
    requires WellFormed(w) && SchemaOk(byTx) && Canonical(byTx, s.db, w) && s.process.Up?
    requires s.process.tip.sub && s.process.tip.reorgAt.Some?
    requires cfg.supportsReorg && Mismatch(s.db, cfg.chain, tip, input.reported) && from == ForkOf(tip, cfg.confirmations) + 1
    requires s2 == AtHeadPoll(cfg, s, input)
    ensures s2.process == Up(from, s.process.tip.(reconcile := true, reorgAt := None), s.process.tick + 1) && s2.past == s.past
    ensures Canonical(byTx, s2.db, w) && forall k :: k in s2.db.raw && k.chain == cfg.chain ==> k.height < from
  {
    FiredProbe(cfg, s, input, tip);
    RollbackKeepsCanonical(byTx, s.db, w, cfg.chain, from, Named(cfg.tables));
  }

  lemma PushOnIdle(s: Sys, p: nat)
    requires s.process.Up? && s.process.tip == Tip(true, true, {}, false, None)
    ensures WakePart(s, Event(LogAt(p))).process == s.process.(tip := Tip(true, true, {p}, false, None))
  {
    assert s.process.tip.pending + {p} == {p};
  }

  /** A reorg check that fires, and a sweep that ends below heights the check deleted. */
  lemma RewoundSweep(byTx: Schema, cfg: Config, w: World, s: Sys, input: TurnInput, from: nat, g: nat, s2: Sys, swept: Sys)
    requires WellFormed(w) && SchemaOk(byTx) && ConfigOk(cfg) && s.process.Up? && s.past.owed == 0 && 1 <= from <= s.process.next
    requires s2 == AtHeadPoll(cfg, s, input) && swept == PollPart(byTx, cfg, w, s2, input)
    requires s2.process == Up(from, Tip(true, true, {}, true, None), s.process.tick + 1) && s2.past == s.past
    requires Canonical(byTx, s2.db, w) && forall k :: k in s2.db.raw && k.chain == cfg.chain ==> k.height < from
    requires !input.stop && SweepsAll(cfg, w, from, input) && Safe(cfg, input.head) < g && Matching(w, cfg.chain, g)
    requires s.process.tip.sub && InOrder(cfg, w, s, input.wake)
    ensures RewindsOk(byTx, cfg, w, s, Take(input)) && StartsLow(byTx, cfg, w, s, Take(input))
    ensures PushesInOrder(byTx, cfg, w, s, Take(input)) && Turn(byTx, cfg, w, s, input) == WakePart(swept, input.wake)
    ensures swept.process == Up(Safe(cfg, input.head) + 1, Tip(true, true, {}, false, None), s.process.tick + 1)
    ensures !Covers(byTx, swept.db, w, cfg.chain, g)
  {
    var safe := Safe(cfg, input.head);
    SweepTurn(byTx, cfg, w, s, input, safe, s2, swept);
    assert ClearedThrough(s2.process.tip.(reconcile := false), safe) == Tip(true, true, {}, false, None);
    StaysUncommitted(byTx, w, s2.db, swept.db, cfg.chain, from, safe, g);
  }

  lemma RewoundTurn(byTx: Schema, cfg: Config, w: World, s: Sys, input: TurnInput, tip: nat, from: nat, g: nat, p: nat, s': Sys)
    requires WellFormed(w) && SchemaOk(byTx) && ConfigOk(cfg) && Canonical(byTx, s.db, w)
    requires s.process.Up? && s.process.tip == Tip(true, true, {}, s.process.tip.reconcile, s.process.tip.reorgAt)
    requires s.process.tip.reorgAt.Some? && s.past.owed == 0 && 1 <= from <= s.process.next
    requires cfg.supportsReorg && Mismatch(s.db, cfg.chain, tip, input.reported) && from == ForkOf(tip, cfg.confirmations) + 1
    requires !input.stop && SweepsAll(cfg, w, from, input) && input.wake == Event(LogAt(p))
    requires InOrder(cfg, w, s, input.wake) && Safe(cfg, input.head) < g && Matching(w, cfg.chain, g)
    requires s' == Turn(byTx, cfg, w, s, input)
    ensures LeadsBut(CaughtUp, byTx, cfg, w, s, Take(input), s')
    ensures s'.process == Up(Safe(cfg, input.head) + 1, Tip(true, true, {p}, false, None), s.process.tick + 1)
    ensures !Covers(byTx, s'.db, w, cfg.chain, g)
  {
    var s2 := AtHeadPoll(cfg, s, input);
    RewoundState(byTx, cfg, w, s, input, tip, from, s2);
    var swept := PollPart(byTx, cfg, w, s2, input);
    RewoundSweep(byTx, cfg, w, s, input, from, g, s2, swept);
    PushOnIdle(swept, p);
    assert s' == WakePart(swept, Event(LogAt(p)));
  }

  /** The run's first turn: subscribed, nothing safe to sweep yet, height `g` pushed. */
  ghost predicate Waited(cfg: Config, one: TurnInput, g: nat, s: Sys) {
    && s.db == EMPTY_DB && s.process == Up(StartOf(cfg), Tip(true, true, {g}, true, None), 1)
    && s.past == Past(one.head, {g}, one.streamFrom, {g}, one.streamFrom, 0, 0)
  }

  lemma WaitingTurn(byTx: Schema, cfg: Config, w: World, one: TurnInput, g: nat, s: Sys)
    requires ConfigOk(cfg) && cfg.ws && !one.stop && one.accepted && Safe(cfg, one.head) < StartOf(cfg)
    requires one.wake == Event(LogAt(g)) && one.streamFrom <= g && NoneMatching(w, cfg.chain, one.streamFrom, g)
    requires s == Turn(byTx, cfg, w, Fresh(cfg), one)
    ensures StepOk(byTx, cfg, w, Fresh(cfg), Take(one)) && Waited(cfg, one, g, s)
  {
    FreshOpens(cfg, one);
    var s2 := AtHeadPoll(cfg, Fresh(cfg), one);
    assert PollPart(byTx, cfg, w, s2, one) == s2.(past := s2.past.(head := one.head));
    assert s2.process.tip.pending + {g} == {g};
  }

  lemma PushedPolls(cfg: Config, s: Sys, input: TurnInput)
    requires s.process.Up? && s.process.tip.sub && s.process.tip.reorgAt.None? && input.reported.None?
    ensures AtHeadPoll(cfg, s, input) == s.(process := s.process.(tick := s.process.tick + 1))
  {
    NothingToProbe(cfg, s, input);
  }

  /** The second: swept past `g`, a removal signalled. */
  ghost predicate Signalled(byTx: Schema, cfg: Config, w: World, one: TurnInput, safe: nat, g: nat, s: Sys) {
    && s.process == Up(safe + 1, Tip(true, true, {}, false, Some(g)), 2)
    && s.past.streamFrom == one.streamFrom && s.past.sent == {g} && s.past.owed == 0
    && SweptRange(byTx, w, cfg.chain, EMPTY_DB, s.db, StartOf(cfg), safe)
  }

  lemma SignalledTurn(byTx: Schema, cfg: Config, w: World, one: TurnInput, two: TurnInput, safe: nat, g: nat, s: Sys, s': Sys)
    requires WellFormed(w) && SchemaOk(byTx) && ConfigOk(cfg) && Waited(cfg, one, g, s) && one.streamFrom <= g <= safe
    requires !two.stop && two.reported.None? && two.wake == Event(RemovedAt(g)) && safe == Safe(cfg, two.head)
    requires SweepsAll(cfg, w, StartOf(cfg), two) && s' == Turn(byTx, cfg, w, s, two)
    ensures StepOk(byTx, cfg, w, s, Take(two)) && Signalled(byTx, cfg, w, one, safe, g, s')
  {
    PushedPolls(cfg, s, two);
    var s2 := AtHeadPoll(cfg, s, two);
    assert Canonical(byTx, EMPTY_DB, w);
    var swept := PollPart(byTx, cfg, w, s2, two);
    SweepTurn(byTx, cfg, w, s, two, safe, s2, swept);
    assert ClearedThrough(s2.process.tip.(reconcile := false), safe) == Tip(true, true, {}, false, None);
  }

  lemma StoredTip(byTx: Schema, w: World, c: nat, db: Db, lo: nat, hi: nat, g: nat, reported: Option<Hash>)
    requires SweptRange(byTx, w, c, EMPTY_DB, db, lo, hi) && lo <= g <= hi
    requires Matching(w, c, g) && NoneMatching(w, c, g + 1, hi + 1) && reported.Some? && reported.value != w(c, g).meta.hash
    ensures Mismatch(db, c, g, reported)
  {
    assert Covers(byTx, db, w, c, g);
    assert forall k :: k in db.blocks && k.chain == c ==> Matching(w, c, k.height);
  }

  /** The first two turns. */
  lemma RunToSignal(byTx: Schema, cfg: Config, w: World, one: TurnInput, two: TurnInput, safe: nat, g: nat)
    returns (states: seq<Sys>, steps: seq<LoopStep>)
    requires WellFormed(w) && SchemaOk(byTx) && ConfigOk(cfg) && cfg.ws
    requires !one.stop && one.accepted && Safe(cfg, one.head) < StartOf(cfg) && one.wake == Event(LogAt(g))
    requires one.streamFrom <= g <= safe == Safe(cfg, two.head) && NoneMatching(w, cfg.chain, one.streamFrom, g)
    requires !two.stop && two.reported.None? && two.wake == Event(RemovedAt(g)) && SweepsAll(cfg, w, StartOf(cfg), two)
    ensures RunBut(CaughtUp, byTx, cfg, w, states, steps) && Signalled(byTx, cfg, w, one, safe, g, states[|steps|])
  {
    states, steps := FirstBoot(CaughtUp, byTx, cfg, w);
    var s1 := Turn(byTx, cfg, w, Fresh(cfg), one);
    WaitingTurn(byTx, cfg, w, one, g, s1);
    states, steps := Extend(CaughtUp, byTx, cfg, w, states, steps, Take(one), s1);
    var s2 := Turn(byTx, cfg, w, s1, two);
    SignalledTurn(byTx, cfg, w, one, two, safe, g, s1, s2);
    states, steps := Extend(CaughtUp, byTx, cfg, w, states, steps, Take(two), s2);
  }

  /** Signalled, with a mismatch at the stored tip `g` and the next push in order. */
  ghost predicate Ready(byTx: Schema, cfg: Config, w: World, s: Sys, three: TurnInput, from: nat, g: nat) {
    && s.process.Up? && s.process.tip == Tip(true, true, {}, false, Some(g)) && s.past.owed == 0 && from <= s.process.next
    && Canonical(byTx, s.db, w) && Mismatch(s.db, cfg.chain, g, three.reported) && InOrder(cfg, w, s, three.wake)
  }

  lemma ReadyToRewind(byTx: Schema, cfg: Config, w: World, one: TurnInput, three: TurnInput, safe: nat, from: nat, g: nat, p: nat, s: Sys)
    requires Signalled(byTx, cfg, w, one, safe, g, s) && StartOf(cfg) <= from <= safe + 1 && StartOf(cfg) <= g <= safe < p
    requires one.streamFrom <= g && NoneMatching(w, cfg.chain, one.streamFrom, g)
    requires Matching(w, cfg.chain, g) && NoneMatching(w, cfg.chain, g + 1, p) && three.wake == Event(LogAt(p))
    requires three.reported.Some? && three.reported.value != w(cfg.chain, g).meta.hash
    ensures Ready(byTx, cfg, w, s, three, from, g)
  {
    StoredTip(byTx, w, cfg.chain, s.db, StartOf(cfg), safe, g, three.reported);
  }

  /** The last two turns. */
  lemma RunFromSignal(
    byTx: Schema, cfg: Config, w: World, states: seq<Sys>, steps: seq<LoopStep>, s: Sys, three: TurnInput, four: TurnInput,
    from: nat, g: nat, p: nat)
    returns (states': seq<Sys>, steps': seq<LoopStep>)
    requires WellFormed(w) && SchemaOk(byTx) && ConfigOk(cfg) && RunBut(CaughtUp, byTx, cfg, w, states, steps)
    requires s == states[|steps|] && Ready(byTx, cfg, w, s, three, from, g)
    requires cfg.supportsReorg && StartOf(cfg) <= from == ForkOf(g, cfg.confirmations) + 1
    requires !three.stop && SweepsAll(cfg, w, from, three) && three.wake == Event(LogAt(p))
    requires !four.stop && four.reported.None? && four.wake == Slept
    requires Safe(cfg, three.head) < g <= Safe(cfg, four.head) < p && Matching(w, cfg.chain, g)
    ensures RunBut(CaughtUp, byTx, cfg, w, states', steps') && Misses(byTx, cfg, w, states'[|steps'|].db, g)
  {
    var s3 := Turn(byTx, cfg, w, s, three);
    RewoundTurn(byTx, cfg, w, s, three, g, from, g, p, s3);
    states', steps' := Extend(CaughtUp, byTx, cfg, w, states, steps, Take(three), s3);
    JumpTurn(byTx, cfg, w, s3, four, p, g);
    states', steps' := Extend(CaughtUp, byTx, cfg, w, states', steps', Take(four), Turn(byTx, cfg, w, s3, four));
  }

  /** From an empty database, with streams and rollbacks that behave: the stream pushes `g`, a sweep
      commits it, and a removal is signalled. The check fires at `g` and deletes it; the next poll sees a
      lower head and ends its sweep below `g`. The stream does not push `g` again, and its next push
      moves the cursor over it. */
  lemma LowHeadRun(
    byTx: Schema, cfg: Config, w: World, one: TurnInput, two: TurnInput, three: TurnInput, four: TurnInput,
    safe: nat, from: nat, g: nat, p: nat)
    returns (states: seq<Sys>, steps: seq<LoopStep>)
    requires WellFormed(w) && SchemaOk(byTx) && ConfigOk(cfg) && cfg.ws && cfg.supportsReorg
    requires !one.stop && one.accepted && Safe(cfg, one.head) < StartOf(cfg) && one.wake == Event(LogAt(g))
    requires one.streamFrom <= g <= safe == Safe(cfg, two.head) && NoneMatching(w, cfg.chain, one.streamFrom, g)
    requires !two.stop && two.reported.None? && two.wake == Event(RemovedAt(g)) && SweepsAll(cfg, w, StartOf(cfg), two)
    requires Matching(w, cfg.chain, g) && NoneMatching(w, cfg.chain, g + 1, p)
    requires !three.stop && three.reported.Some? && three.reported.value != w(cfg.chain, g).meta.hash
    requires StartOf(cfg) <= from == ForkOf(g, cfg.confirmations) + 1 && SweepsAll(cfg, w, from, three)
    requires three.wake == Event(LogAt(p)) && !four.stop && four.reported.None? && four.wake == Slept
    requires Safe(cfg, three.head) < g <= Safe(cfg, four.head) < p && safe < p
    ensures RunBut(CaughtUp, byTx, cfg, w, states, steps) && Misses(byTx, cfg, w, states[|steps|].db, g)
  {
    states, steps := RunToSignal(byTx, cfg, w, one, two, safe, g);
    var s := states[|steps|];
    ReadyToRewind(byTx, cfg, w, one, three, safe, from, g, p, s);
    states, steps := RunFromSignal(byTx, cfg, w, states, steps, s, three, four, from, g, p);
  }

  const LOW_CONFIG := Config(0, 2, 6, 10, 1, true, true, [])
  const LOW_ONE := TurnInput(false, true, 6, None, 7, DriveScript([], false, Finished), Event(LogAt(7)))
  const LOW_TWO := TurnInput(false, true, 0, None, 10, DriveScript([0], false, Finished), Event(RemovedAt(7)))
  const LOW_THREE := TurnInput(false, true, 0, Some([1]), 8, DriveScript([0], false, Finished), Event(LogAt(20)))

  lemma LowSweepsFit(cfg: Config, w: World, two: TurnInput, three: TurnInput)
    requires cfg == LOW_CONFIG && two == LOW_TWO && three == LOW_THREE
    ensures SweepsAll(cfg, w, 6, two) && SweepsAll(cfg, w, 6, three)
    ensures Safe(cfg, two.head) == 8 && Safe(cfg, three.head) == 6 && ForkOf(7, cfg.confirmations) == 5
  {
    OneRangeSweeps(cfg, w, 6, two);
    OneRangeSweeps(cfg, w, 6, three);
  }

  lemma LowHeadMisses(byTx: Schema, cfg: Config, w: World, one: TurnInput, two: TurnInput, three: TurnInput, four: TurnInput)
    returns (states: seq<Sys>, steps: seq<LoopStep>)
    requires WellFormed(w) && SchemaOk(byTx) && cfg == LOW_CONFIG
    requires one == LOW_ONE && two == LOW_TWO && three == LOW_THREE && four == Polling(21)
    requires (forall h :: Matching(w, 0, h) <==> h == 7 || h == 20) && w(0, 7).meta.hash == []
    ensures RunBut(CaughtUp, byTx, cfg, w, states, steps) && Misses(byTx, cfg, w, states[|steps|].db, 7)
  {
    LowSweepsFit(cfg, w, two, three);
    states, steps := LowHeadRun(byTx, cfg, w, one, two, three, four, 8, 6, 7, 20);
  }

  /** Two confirmations, logs at 7 and 20, start block 6, stream from 6. Head 7: nothing to sweep, 7 is
      pushed. Head 10: swept to 8, a removal is signalled. The check fires at stored tip 7 and rolls back
      to 5; head 8: swept to 6, 20 is pushed. Head 21 moves the cursor to 19 over the deleted 7. */
  lemma LowHeadWitness(byTx: Schema) returns (states: seq<Sys>, steps: seq<LoopStep>)
    requires SchemaOk(byTx)
    ensures RunBut(CaughtUp, byTx, LOW_CONFIG, LogsAtTwo(7, 20), states, steps)
    ensures Misses(byTx, LOW_CONFIG, LogsAtTwo(7, 20), states[|steps|].db, 7)
  {
    LoggingIsWellFormed((h: nat) => h == 7 || h == 20);
    states, steps := LowHeadMisses(byTx, LOW_CONFIG, LogsAtTwo(7, 20), LOW_ONE, LOW_TWO, LOW_THREE, Polling(21));
  }

  // ---------------------------------------------------------------- a rollback without a cursor

  function FirstTarget(cfg: Config, head: nat): nat {
    FetchTarget(Safe(cfg, head), StartOf(cfg), cfg.step, cfg.concurrency, true)
  }

  /** The tiles of a fresh loop's first window. */
  ghost function FirstWindow(cfg: Config, w: World, head: nat): seq<Tile>
    requires ConfigOk(cfg)
  {
    Window(w, cfg.chain, StartOf(cfg), FirstTarget(cfg, head), cfg.step)
  }

  lemma OneArrival(byTx: Schema, w: World, c: nat, db: Db, tiles: seq<Tile>, start: nat, i: nat)
    requires i < |tiles|
    ensures InWindow([i], tiles)
    ensures Driven(byTx, w, c, db, tiles, start, [i]) == Arrive(byTx, w, c, Driving(db, NewTracker(start)), tiles[i])
  {
    var order: seq<nat> := [i];
    assert order[..0] == [];
    assert Driven(byTx, w, c, db, tiles, start, []) == Driving(db, NewTracker(start));
  }

  /** A range that arrives above the frontier is committed and the cursor stays. */
  lemma EarlyArrival(byTx: Schema, w: World, c: nat, db: Db, start: nat, tile: Tile)
    requires tile.lo != start
    ensures Arrive(byTx, w, c, Driving(db, NewTracker(start)), tile).db == CommitTile(byTx, w, c, db, tile)
  {
  }

  /** The second range of the first window committed, the first not. */
  ghost predicate SecondRangeOnly(byTx: Schema, w: World, c: nat, db: Db, tile: Tile) {
    && db.cursors == map[] && Canonical(byTx, db, w)
    && AllCovered(byTx, db, w, c, tile.lo, tile.hi) && GrewWithin(EMPTY_DB, db, c, tile.lo, tile.hi)
  }

  lemma SecondArrives(byTx: Schema, cfg: Config, w: World, head: nat, a: Attempt)
    requires WellFormed(w) && SchemaOk(byTx) && ConfigOk(cfg) && |FirstWindow(cfg, w, head)| >= 2
    requires a == Attempt(FirstTarget(cfg, head), cfg.step, [1], false)
    ensures ValidAttempt(w, cfg.chain, StartOf(cfg), a)
    ensures StartOf(cfg) < FirstWindow(cfg, w, head)[1].lo
    ensures SecondRangeOnly(byTx, w, cfg.chain, Attempted(byTx, w, cfg.chain, EMPTY_DB, StartOf(cfg), a), FirstWindow(cfg, w, head)[1])
  {
    var tiles, c, start := FirstWindow(cfg, w, head), cfg.chain, StartOf(cfg);
    WindowTiles(w, c, start, FirstTarget(cfg, head), cfg.step);
    TilesAscend(tiles, start, 0, 1);
    OneArrival(byTx, w, c, EMPTY_DB, tiles, start, 1);
    EarlyArrival(byTx, w, c, EMPTY_DB, start, tiles[1]);
    assert Canonical(byTx, EMPTY_DB, w);
    CommitCovers(byTx, EMPTY_DB, w, c, tiles[1].lo, tiles[1].hi);
    CommitGrowsWithin(byTx, w, c, EMPTY_DB, tiles[1].lo, tiles[1].hi);
  }

  lemma TipIsHighest(byTx: Schema, w: World, db: Db, c: nat, tile: Tile, m: nat)
    requires SecondRangeOnly(byTx, w, c, db, tile)
    requires tile.lo <= m <= tile.hi && Matching(w, c, m) && NoneMatching(w, c, m + 1, tile.hi + 1)
    ensures IsTip(db.blocks, c, m)
  {
    assert Covers(byTx, db, w, c, m);
    assert forall k :: k in db.blocks && k.chain == c ==> Matching(w, c, k.height);
  }

  lemma RolledBackHasNoMore(byTx: Schema, w: World, db: Db, c: nat, from: nat, tables: set<string>, g: nat)
    requires !Covers(byTx, db, w, c, g) && Canonical(byTx, db, w) && WellFormed(w)
    ensures !Covers(byTx, RolledBack(db, c, from, tables), w, c, g)
  {
    if Covers(byTx, RolledBack(db, c, from, tables), w, c, g) {
      CoverageSurvives(byTx, RolledBack(db, c, from, tables), db, w, c, g);
    }
  }

  /** Blocks of a later range and no cursor: a check that fires sends a restarted loop above a
      matching height `g` below that range, which no one has fetched. */
  lemma CursorlessRollbackSkips(byTx: Schema, cfg: Config, w: World, db: Db, tile: Tile, input: TurnInput, m: nat, g: nat)
    requires WellFormed(w) && SchemaOk(byTx) && !cfg.ws && cfg.supportsReorg && SecondRangeOnly(byTx, w, cfg.chain, db, tile)
    requires tile.lo <= m <= tile.hi && Matching(w, cfg.chain, m) && NoneMatching(w, cfg.chain, m + 1, tile.hi + 1)
    requires StartOf(cfg) <= g < tile.lo && g + cfg.confirmations <= m && Matching(w, cfg.chain, g)
    requires input.reported.Some? && forall h :: input.reported.value != w(cfg.chain, h).meta.hash
    ensures var s := Booted(cfg, Sys(db, Down, NO_PAST));
            var after := ProbePart(cfg, s, input);
            && Inv(byTx, cfg, w, s) && g < after.process.next
            && cfg.chain !in after.db.cursors && !Covers(byTx, after.db, w, cfg.chain, g)
  {
    var c, s := cfg.chain, Booted(cfg, Sys(db, Down, NO_PAST));
    TipIsHighest(byTx, w, db, c, tile, m);
    assert Mismatch(db, c, m, input.reported);
    FiredProbe(cfg, s, input, m);
    StaysUncommitted(byTx, w, EMPTY_DB, db, c, tile.lo, tile.hi, g);
    RolledBackHasNoMore(byTx, w, db, c, ForkOf(m, cfg.confirmations) + 1, Named(cfg.tables), g);
  }

  /** The first turn of a fresh polling loop dies once the second range has been committed. */
  lemma FirstTurnDies(byTx: Schema, cfg: Config, w: World, one: TurnInput)
    requires ConfigOk(cfg) && !cfg.ws && !one.stop && StartOf(cfg) <= Safe(cfg, one.head)
    requires |FirstWindow(cfg, w, one.head)| >= 2 && one.drive == DriveScript([1], false, Failed)
    ensures ValidAttempt(w, cfg.chain, StartOf(cfg), Attempt(FirstTarget(cfg, one.head), cfg.step, [1], false))
    ensures var s := Turn(byTx, cfg, w, Fresh(cfg), one);
            && s.process.Down?
            && s.db == Attempted(byTx, w, cfg.chain, EMPTY_DB, StartOf(cfg), Attempt(FirstTarget(cfg, one.head), cfg.step, [1], false))
  {
    NothingToProbe(cfg, Fresh(cfg), one);
    var n := |FirstWindow(cfg, w, one.head)|;
    var order: seq<nat> := [1];
    assert order[..0] == [];
    assert Sanitized([], n) == [];
    assert Sanitized(order, n) == [1];
  }

  lemma RestartState(byTx: Schema, cfg: Config, w: World, s: Sys, two: TurnInput, tile: Tile, m: nat, from: nat, g: nat, s2: Sys)
    requires WellFormed(w) && SchemaOk(byTx) && !cfg.ws && cfg.supportsReorg && SecondRangeOnly(byTx, w, cfg.chain, s.db, tile)
    requires s.process == Up(StartOf(cfg), NewTip(false), 0) && g < tile.lo
    requires tile.lo <= m <= tile.hi && Matching(w, cfg.chain, m) && NoneMatching(w, cfg.chain, m + 1, tile.hi + 1)
    requires two.reported.Some? && two.reported.value != w(cfg.chain, m).meta.hash
    requires from == ForkOf(m, cfg.confirmations) + 1 && s2 == AtHeadPoll(cfg, s, two)
    ensures s2.process == Up(from, NewTip(false), 1) && s2.past == s.past && Canonical(byTx, s2.db, w)
    ensures forall k :: k in s2.db.raw && k.chain == cfg.chain ==> k.height != g
  {
    TipIsHighest(byTx, w, s.db, cfg.chain, tile, m);
    FiredProbe(cfg, s, two, m);
    RollbackKeepsCanonical(byTx, s.db, w, cfg.chain, from, Named(cfg.tables));
  }

  lemma RestartSweeps(byTx: Schema, cfg: Config, w: World, s: Sys, two: TurnInput, safe: nat, from: nat, g: nat, s2: Sys, s': Sys)
    requires WellFormed(w) && SchemaOk(byTx) && ConfigOk(cfg) && s.process.Up? && s.process.next >= 1 && StartOf(cfg) <= g < from
    requires s2 == AtHeadPoll(cfg, s, two) && s2.process == Up(from, NewTip(false), 1) && Canonical(byTx, s2.db, w)
    requires s2.past == NO_PAST && forall k :: k in s2.db.raw && k.chain == cfg.chain ==> k.height != g
    requires !two.stop && two.wake == Slept && SweepsAll(cfg, w, from, two) && safe == Safe(cfg, two.head) && Matching(w, cfg.chain, g)
    requires s' == Turn(byTx, cfg, w, s, two)
    ensures LeadsBut(SafeRewinds, byTx, cfg, w, s, Take(two), s') && Misses(byTx, cfg, w, s'.db, g)
  {
    var swept := PollPart(byTx, cfg, w, s2, two);
    SweepTurn(byTx, cfg, w, s, two, safe, s2, swept);
    StaysUncommitted(byTx, w, s2.db, swept.db, cfg.chain, from, safe, g);
  }

  /** The dead turn's database and a restart: the check fires, and the sweep above it moves the cursor
      over `g`. */
  lemma RestartSkips(byTx: Schema, cfg: Config, w: World, s: Sys, two: TurnInput, tile: Tile, m: nat, from: nat, g: nat, s': Sys)
    requires WellFormed(w) && SchemaOk(byTx) && ConfigOk(cfg) && !cfg.ws && cfg.supportsReorg
    requires s.process == Up(StartOf(cfg), NewTip(false), 0) && s.past == NO_PAST && SecondRangeOnly(byTx, w, cfg.chain, s.db, tile)
    requires tile.lo <= m <= tile.hi && Matching(w, cfg.chain, m) && NoneMatching(w, cfg.chain, m + 1, tile.hi + 1)
    requires StartOf(cfg) <= g < tile.lo && g < from == ForkOf(m, cfg.confirmations) + 1 && Matching(w, cfg.chain, g)
    requires !two.stop && two.wake == Slept && two.reported.Some? && two.reported.value != w(cfg.chain, m).meta.hash
    requires SweepsAll(cfg, w, from, two) && s' == Turn(byTx, cfg, w, s, two)
    ensures LeadsBut(SafeRewinds, byTx, cfg, w, s, Take(two), s') && Misses(byTx, cfg, w, s'.db, g)
  {
    var s2 := AtHeadPoll(cfg, s, two);
    RestartState(byTx, cfg, w, s, two, tile, m, from, g, s2);
    RestartSweeps(byTx, cfg, w, s, two, Safe(cfg, two.head), from, g, s2, s');
  }

  /** The first two steps and the restart. */
  lemma RunToRestart(byTx: Schema, cfg: Config, w: World, one: TurnInput, tile: Tile)
    returns (states: seq<Sys>, steps: seq<LoopStep>)
    requires WellFormed(w) && SchemaOk(byTx) && ConfigOk(cfg) && !cfg.ws && !one.stop && StartOf(cfg) <= Safe(cfg, one.head)
    requires |FirstWindow(cfg, w, one.head)| >= 2 && one.drive == DriveScript([1], false, Failed)
    requires tile == FirstWindow(cfg, w, one.head)[1]
    ensures RunBut(SafeRewinds, byTx, cfg, w, states, steps)
    ensures var s := states[|steps|];
            s.process == Up(StartOf(cfg), NewTip(false), 0) && s.past == NO_PAST && SecondRangeOnly(byTx, w, cfg.chain, s.db, tile)
  {
    states, steps := FirstBoot(SafeRewinds, byTx, cfg, w);
    FirstTurnDies(byTx, cfg, w, one);
    var dead := Turn(byTx, cfg, w, Fresh(cfg), one);
    states, steps := Extend(SafeRewinds, byTx, cfg, w, states, steps, Take(one), dead);
    SecondArrives(byTx, cfg, w, one.head, Attempt(FirstTarget(cfg, one.head), cfg.step, [1], false));
    states, steps := Extend(SafeRewinds, byTx, cfg, w, states, steps, Boot, Booted(cfg, dead));
  }

  /** So from an empty database: a first turn that dies once the second range is committed, a restart,
      and a check that fires take the cursor over an unfetched matching height. */
  lemma CursorlessRun(byTx: Schema, cfg: Config, w: World, one: TurnInput, two: TurnInput, tile: Tile, m: nat, from: nat, g: nat)
    returns (states: seq<Sys>, steps: seq<LoopStep>)
    requires WellFormed(w) && SchemaOk(byTx) && ConfigOk(cfg) && !cfg.ws && cfg.supportsReorg
    requires !one.stop && StartOf(cfg) <= Safe(cfg, one.head)
    requires |FirstWindow(cfg, w, one.head)| >= 2 && one.drive == DriveScript([1], false, Failed)
    requires tile == FirstWindow(cfg, w, one.head)[1]
    requires tile.lo <= m <= tile.hi && Matching(w, cfg.chain, m) && NoneMatching(w, cfg.chain, m + 1, tile.hi + 1)
    requires StartOf(cfg) <= g < tile.lo && g < from == ForkOf(m, cfg.confirmations) + 1 && Matching(w, cfg.chain, g)
    requires !two.stop && two.wake == Slept && two.reported.Some? && two.reported.value != w(cfg.chain, m).meta.hash
    requires SweepsAll(cfg, w, from, two)
    ensures RunBut(SafeRewinds, byTx, cfg, w, states, steps) && Misses(byTx, cfg, w, states[|steps|].db, g)
  {
    states, steps := RunToRestart(byTx, cfg, w, one, tile);
    var s := states[|steps|];
    var s' := Turn(byTx, cfg, w, s, two);
    RestartSkips(byTx, cfg, w, s, two, tile, m, from, g, s');
    states, steps := Extend(SafeRewinds, byTx, cfg, w, states, steps, Take(two), s');
  }

  const POLL_CONFIG := Config(0, 1, 0, 2, 2, false, true, [])
  const POLL_ONE := TurnInput(false, false, 0, None, 5, DriveScript([1], false, Failed), Slept)
  const POLL_TWO := TurnInput(false, false, 0, Some([1]), 5, DriveScript([0], false, Finished), Slept)

  /** One confirmation, ranges of two blocks, logs at heights 2 and 3. The first drive commits 3..4
      and dies; after the restart the check rolls back to fork 2, and the sweep from 3 moves the cursor
      to 4 over the unfetched 2. */
  lemma CursorlessWitness(byTx: Schema) returns (states: seq<Sys>, steps: seq<LoopStep>)
    requires SchemaOk(byTx)
    ensures RunBut(SafeRewinds, byTx, POLL_CONFIG, LogsAtTwo(2, 3), states, steps)
    ensures Misses(byTx, POLL_CONFIG, LogsAtTwo(2, 3), states[|steps|].db, 2)
  {
    var cfg, w := POLL_CONFIG, LogsAtTwo(2, 3);
    LoggingIsWellFormed((h: nat) => h == 2 || h == 3);
    assert PlannedSpans(5, 4, 2) == [];
    assert PlannedSpans(3, 4, 2) == [Span(3, 4)];
    assert PlannedSpans(1, 4, 2) == [Span(1, 2), Span(3, 4)];
    OneRangeSweeps(cfg, w, 3, POLL_TWO);
    states, steps := CursorlessRun(byTx, cfg, w, POLL_ONE, POLL_TWO, FirstWindow(cfg, w, 5)[1], 3, 3, 2);
  }

  // ---------------------------------------------------------------- every hypothesis is needed

  /** Whichever hypothesis is dropped, some run from the empty database meets the other three and
      leaves a height behind the cursor uncommitted. */
  lemma EveryHypothesisIsNeeded(byTx: Schema, broken: Hypothesis)
    returns (cfg: Config, w: World, states: seq<Sys>, steps: seq<LoopStep>, h: nat)
    requires SchemaOk(byTx)
    ensures ConfigOk(cfg) && WellFormed(w) && RunBut(broken, byTx, cfg, w, states, steps)
    ensures Misses(byTx, cfg, w, states[|steps|].db, h)
  {
    match broken {
      case SafeRewinds =>
        cfg, w, h := POLL_CONFIG, LogsAtTwo(2, 3), 2;
        LoggingIsWellFormed((h: nat) => h == 2 || h == 3);
        states, steps := CursorlessWitness(byTx);
      case LowStarts =>
        cfg, w, h := WS_CONFIG, LogsAtTwo(3, 6), 3;
        LoggingIsWellFormed((h: nat) => h == 3 || h == 6);
        states, steps := LateStreamWitness(byTx);
      case OrderedPushes =>
        cfg, w, h := WS_CONFIG, LogsAtTwo(3, 6), 3;
        LoggingIsWellFormed((h: nat) => h == 3 || h == 6);
        states, steps := OutOfOrderWitness(byTx);
      case CaughtUp =>
        cfg, w, h := LOW_CONFIG, LogsAtTwo(7, 20), 7;
        LoggingIsWellFormed((h: nat) => h == 7 || h == 20);
        states, steps := LowHeadWitness(byTx);
    }
  }
}
