/** Where the loop's assumptions about the outside are needed: exactly when an idle stream or a rollback
    makes it miss a height, and the lives of a process in which heads may go back. */
module Limits {
  import opened Model
  import opened Plan
  import opened Chain
  import opened Drive
  import opened Database
  import opened Reorg
  import opened Tip
  import opened Ingest

  // ---------------------------------------------------------------- heads that go back

  /** The head polled is not below the last one this process saw. */
  ghost predicate Steady(cfg: Config, s: Sys, step: LoopStep)
    requires Enabled(s, step)
  {
    Polls(step) && ShouldPollHead(AtHeadPoll(cfg, s, step.input).process.tip) ==> s.past.head <= step.input.head
  }

  /** No reorg check moves the loop back. */
  ghost predicate NoRewind(cfg: Config, s: Sys, step: LoopStep)
    requires Enabled(s, step)
  {
    Checks(step) ==> s.process.next <= AtHeadPoll(cfg, s, step.input).process.next
  }

  /** How far sweeps can have reached in a life with steady heads, and in one without a rewind. */
  ghost predicate Reach(cfg: Config, steady: bool, s: Sys) {
    s.process.Up? ==> s.past.swept <= if steady then Safe(cfg, s.past.head) + 1 else s.process.next
  }

  ghost predicate Keeps(cfg: Config, steady: bool, s: Sys, step: LoopStep)
    requires Enabled(s, step)
  {
    if steady then Steady(cfg, s, step) else NoRewind(cfg, s, step)
  }

  /** What a poll does to the reach, and that it leaves the loop above it when it settles. */
  lemma PollReaches(byTx: Schema, cfg: Config, w: World, steady: bool, s: Sys, input: TurnInput)
    requires WellFormed(w) && SchemaOk(byTx) && ConfigOk(cfg) && s.process.Up? && Inv(byTx, cfg, w, s)
    requires Reach(cfg, steady, s) && (steady && ShouldPollHead(s.process.tip) ==> s.past.head <= input.head)
    ensures Reach(cfg, steady, PollPart(byTx, cfg, w, s, input))
    ensures SweepsCatchUp(byTx, cfg, w, s, input)
  {
    var safe := Safe(cfg, input.head);
    if ShouldPollHead(s.process.tip) && s.process.next <= safe && MustFetch(s.process.tip, safe) {
      var seen := s.(past := s.past.(head := input.head));
      SweptRows(byTx, cfg, w, seen, safe, input.drive);
    }
  }

  lemma CheckReaches(byTx: Schema, cfg: Config, w: World, steady: bool, s: Sys, step: LoopStep, s2: Sys)
    requires WellFormed(w) && SchemaOk(byTx) && Inv(byTx, cfg, w, s) && Enabled(s, step) && Checks(step)
    requires RewindsOk(byTx, cfg, w, s, step) && Reach(cfg, steady, s) && Keeps(cfg, steady, s, step)
    requires s2 == AtHeadPoll(cfg, s, step.input)
    ensures Inv(byTx, cfg, w, s2) && Reach(cfg, steady, s2) && s2.past.head == s.past.head
  {
    SubscribeKeeps(byTx, cfg, w, s, step.input);
    ProbeKeeps(byTx, cfg, w, SubscribePart(s, step.input), step.input);
  }

  lemma StepReaches(byTx: Schema, cfg: Config, w: World, steady: bool, s: Sys, step: LoopStep)
    requires WellFormed(w) && SchemaOk(byTx) && ConfigOk(cfg) && Inv(byTx, cfg, w, s) && Enabled(s, step) && !step.Boot?
    requires RewindsOk(byTx, cfg, w, s, step) && Reach(cfg, steady, s) && Keeps(cfg, steady, s, step)
    ensures CatchesUp(byTx, cfg, w, s, step) && Reach(cfg, steady, StepTo(byTx, cfg, w, s, step))
  {
    if Polls(step) {
      var s2 := AtHeadPoll(cfg, s, step.input);
      CheckReaches(byTx, cfg, w, steady, s, step, s2);
      PollReaches(byTx, cfg, w, steady, s2, step.input);
    }
  }

  /** The loop can take the step, and rollbacks and streams behave. */
  ghost predicate Streams(byTx: Schema, cfg: Config, w: World, s: Sys, step: LoopStep, s': Sys)
    requires ConfigOk(cfg)
  {
    && Enabled(s, step) && s' == StepTo(byTx, cfg, w, s, step)
    && RewindsOk(byTx, cfg, w, s, step) && StartsLow(byTx, cfg, w, s, step) && PushesInOrder(byTx, cfg, w, s, step)
  }

  /** Any run in which rollbacks and streams behave, whatever the heads. */
  ghost predicate StreamRun(byTx: Schema, cfg: Config, w: World, db: Db, states: seq<Sys>, steps: seq<LoopStep>)
    requires ConfigOk(cfg)
  {
    && |states| == |steps| + 1 && states[0] == Sys(db, Down, NO_PAST)
    && forall k {:trigger steps[k]} :: 0 <= k < |steps| ==>
         Streams(byTx, cfg, w, states[k], steps[k], states[k + 1])
  }

  /** In each life of the process either no head is below the one before, or no check moves the loop
      back; `steady` says which, and changes only at a restart. */
  ghost predicate Lives(cfg: Config, states: seq<Sys>, steps: seq<LoopStep>, steady: seq<bool>) {
    && |states| == |steps| + 1 == |steady| + 1
    && (forall k {:trigger steps[k]} :: 0 <= k < |steps| ==>
          Enabled(states[k], steps[k]) && Keeps(cfg, steady[k], states[k], steps[k]))
    && forall j, k :: 0 <= j && k == j + 1 && k < |steps| && !steps[k].Boot? ==> steady[k] == steady[j]
  }

  lemma LifeStep(byTx: Schema, cfg: Config, w: World, steady: bool, s: Sys, step: LoopStep, s': Sys)
    requires WellFormed(w) && SchemaOk(byTx) && ConfigOk(cfg) && Inv(byTx, cfg, w, s) && Streams(byTx, cfg, w, s, step, s')
    requires Keeps(cfg, steady, s, step) && (!step.Boot? ==> Reach(cfg, steady, s))
    ensures Leads(byTx, cfg, w, s, step, s') && Inv(byTx, cfg, w, s') && Reach(cfg, steady, s')
  {
    if !step.Boot? {
      StepReaches(byTx, cfg, w, steady, s, step);
    }
    StepKeeps(byTx, cfg, w, s, step);
  }

  lemma {:induction false} LivesCatchUp(
    byTx: Schema, cfg: Config, w: World, db: Db, states: seq<Sys>, steps: seq<LoopStep>, steady: seq<bool>, k: nat)
    requires WellFormed(w) && SchemaOk(byTx) && ConfigOk(cfg) && Canonical(byTx, db, w) && NoMissedHeight(byTx, cfg, w, db)
    requires StreamRun(byTx, cfg, w, db, states, steps) && Lives(cfg, states, steps, steady) && k < |steps|
    ensures Inv(byTx, cfg, w, states[k]) && Leads(byTx, cfg, w, states[k], steps[k], states[k + 1])
    ensures Inv(byTx, cfg, w, states[k + 1]) && Reach(cfg, steady[k], states[k + 1])
  {
    if k > 0 {
      var j := k - 1;
      LivesCatchUp(byTx, cfg, w, db, states, steps, steady, j);
      assert k == j + 1;
    }
    LifeStep(byTx, cfg, w, steady[k], states[k], steps[k], states[k + 1]);
  }

  /** So the loop misses no height when in each life of the process the head does not go back, or no
      reorg check moves the loop back, whatever happens in the other lives. */
  lemma LivesMissNothing(
    byTx: Schema, cfg: Config, w: World, db: Db, states: seq<Sys>, steps: seq<LoopStep>, steady: seq<bool>, k: nat, h: nat)
    requires WellFormed(w) && SchemaOk(byTx) && ConfigOk(cfg) && Canonical(byTx, db, w) && NoMissedHeight(byTx, cfg, w, db)
    requires StreamRun(byTx, cfg, w, db, states, steps) && Lives(cfg, states, steps, steady) && k <= |steps|
    requires cfg.chain in states[k].db.cursors && StartOf(cfg) <= h <= states[k].db.cursors[cfg.chain].height
    ensures LoopRun(byTx, cfg, w, db, states, steps)
    ensures Covers(byTx, states[k].db, w, cfg.chain, h)
  {
    forall i | 0 <= i < |steps|
      ensures Leads(byTx, cfg, w, states[i], steps[i], states[i + 1])
    {
      LivesCatchUp(byTx, cfg, w, db, states, steps, steady, i);
    }
    NoHeightIsEverMissed(byTx, cfg, w, db, states, steps, k, h);
  }

  // ---------------------------------------------------------------- a loop that only polls

  ghost predicate NoStream(s: Sys) {
    s.process.Up? ==> !s.process.tip.wsEnabled && !s.process.tip.sub
  }

  /** The loop can take the step, and a check moves it up only over committed heights. */
  ghost predicate Rewinds(byTx: Schema, cfg: Config, w: World, s: Sys, step: LoopStep, s': Sys)
    requires ConfigOk(cfg)
  {
    Enabled(s, step) && s' == StepTo(byTx, cfg, w, s, step) && RewindsOk(byTx, cfg, w, s, step)
  }

  lemma PollStaysStreamless(byTx: Schema, cfg: Config, w: World, s: Sys, input: TurnInput)
    requires ConfigOk(cfg) && s.process.Up? && s.process.next >= 1 && NoStream(s)
    ensures NoStream(AtHeadPoll(cfg, s, input))
    ensures NoStream(PollPart(byTx, cfg, w, AtHeadPoll(cfg, s, input), input))
  {
  }

  lemma StreamlessStep(byTx: Schema, cfg: Config, w: World, s: Sys, step: LoopStep, s': Sys)
    requires ConfigOk(cfg) && !cfg.ws && NoStream(s) && Rewinds(byTx, cfg, w, s, step, s')
    ensures Leads(byTx, cfg, w, s, step, s') && NoStream(s')
  {
    if !step.Boot? {
      PollStaysStreamless(byTx, cfg, w, s, step.input);
    }
  }

  lemma {:induction false} StreamlessRun(
    byTx: Schema, cfg: Config, w: World, db: Db, states: seq<Sys>, steps: seq<LoopStep>, k: nat)
    requires ConfigOk(cfg) && !cfg.ws && |states| == |steps| + 1 && states[0] == Sys(db, Down, NO_PAST) && k < |steps|
    requires forall i {:trigger steps[i]} :: 0 <= i < |steps| ==> Rewinds(byTx, cfg, w, states[i], steps[i], states[i + 1])
    ensures Leads(byTx, cfg, w, states[k], steps[k], states[k + 1]) && NoStream(states[k + 1])
  {
    if k > 0 {
      StreamlessRun(byTx, cfg, w, db, states, steps, k - 1);
    }
    StreamlessStep(byTx, cfg, w, states[k], steps[k], states[k + 1]);
  }

  /** A loop without streams needs nothing of the outside but that: it misses no height. */
  lemma PollingMissesNothing(
    byTx: Schema, cfg: Config, w: World, db: Db, states: seq<Sys>, steps: seq<LoopStep>, k: nat, h: nat)
    requires WellFormed(w) && SchemaOk(byTx) && ConfigOk(cfg) && Canonical(byTx, db, w) && NoMissedHeight(byTx, cfg, w, db)
    requires !cfg.ws && |states| == |steps| + 1 && states[0] == Sys(db, Down, NO_PAST) && k <= |steps|
    requires forall i {:trigger steps[i]} :: 0 <= i < |steps| ==> Rewinds(byTx, cfg, w, states[i], steps[i], states[i + 1])
    requires cfg.chain in states[k].db.cursors && StartOf(cfg) <= h <= states[k].db.cursors[cfg.chain].height
    ensures Covers(byTx, states[k].db, w, cfg.chain, h)
  {
    forall i | 0 <= i < |steps|
      ensures Leads(byTx, cfg, w, states[i], steps[i], states[i + 1])
    {
      StreamlessRun(byTx, cfg, w, db, states, steps, i);
    }
    NoHeightIsEverMissed(byTx, cfg, w, db, states, steps, k, h);
  }

  // ---------------------------------------------------------------- an idle stream

  /** The loop follows a live stream, with nothing pending and no sweep owed. */
  ghost predicate Idle(s: Sys) {
    && s.process.Up? && s.process.tip.wsEnabled && s.process.tip.sub && !s.process.tip.reconcile
    && s.process.tip.pending == {}
  }

  /** The database once the stream has pushed height `p` and the loop has polled the head. */
  ghost function AfterPush(byTx: Schema, cfg: Config, w: World, s: Sys, input: TurnInput, p: nat): Db
    requires ConfigOk(cfg) && Idle(s) && s.process.next >= 1
  {
    PollPart(byTx, cfg, w, WakePart(s, Event(LogAt(p))), input).db
  }

  lemma PushJumps(byTx: Schema, cfg: Config, w: World, s: Sys, input: TurnInput, p: nat)
    requires ConfigOk(cfg) && Idle(s) && 1 <= s.process.next <= Safe(cfg, input.head) < p
    ensures AfterPush(byTx, cfg, w, s, input, p) == Advanced(s.db, cfg.chain, Checkpoint(Safe(cfg, input.head), []))
  {
    var tip := WakePart(s, Event(LogAt(p))).process.tip;
    assert tip.pending == {p};
  }

  /** The height is one the stream will not push: it is below the stream's first, or was pushed. */
  predicate NotToCome(past: Past, g: nat) {
    g < past.streamFrom || g in past.sent
  }

  lemma ToComeIsQuiet(byTx: Schema, cfg: Config, w: World, s: Sys, p: nat, g: nat)
    requires WellFormed(w) && Idle(s) && InOrder(cfg, w, s, Event(LogAt(p))) && g < p && !NotToCome(s.past, g)
    ensures Covers(byTx, s.db, w, cfg.chain, g)
  {
    EmptyHeightsAreCovered(byTx, s.db, w, cfg.chain, g, g);
  }

  /** A push above the safe tip moves the cursor of an idle loop to the safe tip with no fetch. No
      height is missed exactly when every height in between that the stream will not push is
      committed. */
  lemma IdleStreamDecides(byTx: Schema, cfg: Config, w: World, s: Sys, input: TurnInput, p: nat)
    requires WellFormed(w) && ConfigOk(cfg) && Canonical(byTx, s.db, w) && Idle(s)
    requires StartOf(cfg) <= s.process.next <= Safe(cfg, input.head) < p
    requires AllCovered(byTx, s.db, w, cfg.chain, StartOf(cfg), s.process.next - 1)
    requires InOrder(cfg, w, s, Event(LogAt(p)))
    ensures NoMissedHeight(byTx, cfg, w, AfterPush(byTx, cfg, w, s, input, p)) <==>
            forall g: nat :: s.process.next <= g <= Safe(cfg, input.head) && NotToCome(s.past, g) ==>
              Covers(byTx, s.db, w, cfg.chain, g)
  {
    var c, start, safe := cfg.chain, StartOf(cfg), Safe(cfg, input.head);
    PushJumps(byTx, cfg, w, s, input, p);
    var db' := AfterPush(byTx, cfg, w, s, input, p);
    if forall g: nat :: s.process.next <= g <= safe && NotToCome(s.past, g) ==> Covers(byTx, s.db, w, c, g) {
      forall g: nat | s.process.next <= g <= safe
        ensures Covers(byTx, s.db, w, c, g)
      {
        if !NotToCome(s.past, g) {
          ToComeIsQuiet(byTx, cfg, w, s, p, g);
        }
      }
      CoverageGrows(byTx, s.db, db', w, c, start, safe);
    }
    if AllCovered(byTx, db', w, c, start, safe) {
      CoverageGrows(byTx, db', s.db, w, c, start, safe);
    }
  }

  /** For a stream that has pushed nothing yet: exactly when everything below its first height is
      committed. */
  lemma LateStreamDecides(byTx: Schema, cfg: Config, w: World, s: Sys, input: TurnInput, p: nat)
    requires WellFormed(w) && ConfigOk(cfg) && Canonical(byTx, s.db, w) && Idle(s) && s.past.sent == {}
    requires StartOf(cfg) <= s.process.next <= Safe(cfg, input.head) < p
    requires AllCovered(byTx, s.db, w, cfg.chain, StartOf(cfg), s.process.next - 1)
    requires InOrder(cfg, w, s, Event(LogAt(p)))
    ensures NoMissedHeight(byTx, cfg, w, AfterPush(byTx, cfg, w, s, input, p)) <==>
            AllCovered(byTx, s.db, w, cfg.chain, s.process.next, Min(s.past.streamFrom - 1, Safe(cfg, input.head)))
  {
    IdleStreamDecides(byTx, cfg, w, s, input, p);
    var next, top := s.process.next, Min(s.past.streamFrom - 1, Safe(cfg, input.head));
    if AllCovered(byTx, s.db, w, cfg.chain, next, top) {
      assert forall g: nat :: next <= g <= Safe(cfg, input.head) && NotToCome(s.past, g) ==> g <= top;
    } else {
      var g: nat :| next <= g <= top && !Covers(byTx, s.db, w, cfg.chain, g);
      assert NotToCome(s.past, g);
    }
  }

  /** A stream out of order makes the loop skip a height it has not pushed yet. */
  lemma OutOfOrderSkips(byTx: Schema, cfg: Config, w: World, s: Sys, input: TurnInput, p: nat, g: nat)
    requires ConfigOk(cfg) && Idle(s) && s.past.streamFrom <= g && s.process.next >= 1
    requires StartOf(cfg) <= s.process.next <= g <= Safe(cfg, input.head) < p && !Covers(byTx, s.db, w, cfg.chain, g)
    ensures !NoMissedHeight(byTx, cfg, w, AfterPush(byTx, cfg, w, s, input, p))
  {
    PushJumps(byTx, cfg, w, s, input, p);
    var db' := AfterPush(byTx, cfg, w, s, input, p);
    if Covers(byTx, db', w, cfg.chain, g) {
      assert Covers(byTx, s.db, w, cfg.chain, g);
    }
  }

  // ---------------------------------------------------------------- a rollback above the loop

  /** A reorg check that fires moves the loop to just above the fork, whether or not the chain has a
      cursor. The invariant survives exactly when the heights it moves over are committed. */
  lemma RewindDecides(byTx: Schema, cfg: Config, w: World, s: Sys, input: TurnInput)
    requires WellFormed(w) && SchemaOk(byTx) && s.process.Up? && Inv(byTx, cfg, w, s)
    ensures Inv(byTx, cfg, w, ProbePart(cfg, s, input)) <==> RewindsSafely(byTx, cfg, w, s, input)
    ensures var after := ProbePart(cfg, s, input);
            AllCovered(byTx, after.db, w, cfg.chain, StartOf(cfg), after.process.next - 1) <==>
            RewindsSafely(byTx, cfg, w, s, input)
  {
    var after := ProbePart(cfg, s, input);
    if RewindsSafely(byTx, cfg, w, s, input) {
      ProbeKeeps(byTx, cfg, w, s, input);
    }
    if AllCovered(byTx, after.db, w, cfg.chain, StartOf(cfg), after.process.next - 1) {
      CoverageGrows(byTx, after.db, s.db, w, cfg.chain, StartOf(cfg), after.process.next - 1);
    }
  }
}
