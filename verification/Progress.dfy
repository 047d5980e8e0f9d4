/** What the ingest loop does get done: it resubscribes and sweeps after a lost stream, notices a
    mismatched tip within sixteen turns, and reaches the safe tip window by window. */
module Progress {
  import opened Model
  import opened Plan
  import opened Chain
  import opened Drive
  import opened Database
  import opened Reorg
  import opened Tip
  import opened Ingest

  /** The states of a process over some turns, none of which it is told to stop before. */
  ghost predicate TurnsOf(byTx: Schema, cfg: Config, w: World, states: seq<Sys>, inputs: seq<TurnInput>)
    requires ConfigOk(cfg)
  {
    && |states| == |inputs| + 1
    && forall k {:trigger inputs[k]} :: 0 <= k < |inputs| ==> TurnLeads(byTx, cfg, w, states[k], inputs[k], states[k + 1])
  }

  ghost predicate TurnLeads(byTx: Schema, cfg: Config, w: World, s: Sys, input: TurnInput, s': Sys)
    requires ConfigOk(cfg)
  {
    s.process.Up? && s.process.next >= 1 && !input.stop && s' == Turn(byTx, cfg, w, s, input)
  }

  // ---------------------------------------------------------------- stopping

  /** Told to stop, the process goes down and leaves the database as it is: before a turn at once, in the
      wait at its end after everything else the turn did. */
  lemma StopIsClean(byTx: Schema, cfg: Config, w: World, s: Sys, input: TurnInput)
    requires ConfigOk(cfg) && s.process.Up? && s.process.next >= 1
    ensures input.stop ==> Turn(byTx, cfg, w, s, input) == s.(process := Down)
    ensures WakePart(s, Cancelled) == s.(process := Down)
  {
  }

  // ---------------------------------------------------------------- a lost stream

  /** The turn polls the head: the head it is given is the last one seen. */
  ghost predicate PollsHead(byTx: Schema, cfg: Config, w: World, s: Sys, input: TurnInput)
    requires ConfigOk(cfg) && s.process.Up? && s.process.next >= 1
  {
    PollPart(byTx, cfg, w, AtHeadPoll(cfg, s, input), input).past.head == input.head
  }

  /** An error or end of the stream leaves the process up, without a stream, and changes nothing else. */
  lemma LossDropsStream(s: Sys, e: WsEvent)
    requires s.process.Up? && (e.StreamError? || e.StreamEnd?)
    ensures var s' := WakePart(s, Event(e));
            s'.db == s.db && s'.past == s.past && s'.process == s.process.(tip := s.process.tip.(sub := false))
  {
  }

  /** Without a stream a turn that is refused one stays without. */
  lemma RefusedStaysWithout(byTx: Schema, cfg: Config, w: World, s: Sys, input: TurnInput, s': Sys)
    requires ConfigOk(cfg) && TurnLeads(byTx, cfg, w, s, input, s') && !input.accepted && !s.process.tip.sub
    ensures s'.process.Up? ==> !s'.process.tip.sub && s'.process.tip.wsEnabled == s.process.tip.wsEnabled
  {
    var s2 := AtHeadPoll(cfg, s, input);
    assert s2.process.tip.sub == s.process.tip.sub && s2.process.tip.wsEnabled == s.process.tip.wsEnabled;
    var s3 := PollPart(byTx, cfg, w, s2, input);
    assert s3.process.Up? ==> s3.process.tip.sub == s2.process.tip.sub && s3.process.tip.wsEnabled == s2.process.tip.wsEnabled;
  }

  /** A turn that is granted one owes a sweep and polls the head for it. */
  lemma GrantedTurnPolls(byTx: Schema, cfg: Config, w: World, s: Sys, input: TurnInput)
    requires ConfigOk(cfg) && s.process.Up? && s.process.next >= 1 && input.accepted
    requires s.process.tip.wsEnabled && !s.process.tip.sub
    ensures var tip := AtHeadPoll(cfg, s, input).process.tip; tip.sub && tip.reconcile
    ensures PollsHead(byTx, cfg, w, s, input)
  {
    var s2 := AtHeadPoll(cfg, s, input);
    assert s2.process.tip.sub && s2.process.tip.reconcile;
  }

  lemma {:induction false} StaysWithout(byTx: Schema, cfg: Config, w: World, states: seq<Sys>, inputs: seq<TurnInput>, k: nat)
    requires ConfigOk(cfg) && TurnsOf(byTx, cfg, w, states, inputs) && k < |inputs|
    requires states[0].process.Up? && states[0].process.tip.wsEnabled && !states[0].process.tip.sub
    requires forall i :: 0 <= i < k ==> !inputs[i].accepted
    ensures states[k].process.Up? && states[k].process.next >= 1
    ensures states[k].process.tip.wsEnabled && !states[k].process.tip.sub
  {
    assert TurnLeads(byTx, cfg, w, states[k], inputs[k], states[k + 1]);
    if k > 0 {
      var j := k - 1;
      StaysWithout(byTx, cfg, w, states, inputs, j);
      RefusedStaysWithout(byTx, cfg, w, states[j], inputs[j], states[k]);
    }
  }

  /** After a stream is lost, however many turns are refused a new one, the first that is granted one
      owes a sweep and polls the head: the loop does not idle on a dead stream. */
  lemma LostStreamIsReplaced(
    byTx: Schema, cfg: Config, w: World, s: Sys, e: WsEvent, states: seq<Sys>, inputs: seq<TurnInput>, k: nat)
    requires ConfigOk(cfg) && TurnsOf(byTx, cfg, w, states, inputs) && k < |inputs|
    requires s.process.Up? && s.process.tip.wsEnabled && (e.StreamError? || e.StreamEnd?)
    requires states[0] == WakePart(s, Event(e)) && inputs[k].accepted && forall i :: 0 <= i < k ==> !inputs[i].accepted
    ensures states[k].process.Up? && states[k].process.next >= 1
    ensures var tip := AtHeadPoll(cfg, states[k], inputs[k]).process.tip; tip.sub && tip.reconcile
    ensures PollsHead(byTx, cfg, w, states[k], inputs[k])
  {
    LossDropsStream(s, e);
    StaysWithout(byTx, cfg, w, states, inputs, k);
    GrantedTurnPolls(byTx, cfg, w, states[k], inputs[k]);
  }

  /** A loop on a live stream with nothing pending and nothing owed asks the source for nothing. */
  lemma IdleTurnAsksNothing(byTx: Schema, cfg: Config, w: World, s: Sys, input: TurnInput)
    requires ConfigOk(cfg) && s.process.Up? && s.process.next >= 1
    requires s.process.tip.wsEnabled && !s.process.tip.reconcile && s.process.tip.pending == {}
    ensures PollPart(byTx, cfg, w, s, input) == s
  {
  }

  /** While the head is fewer than the confirmations above the next height, a poll only notes it. */
  lemma TooEarlyToSweep(byTx: Schema, cfg: Config, w: World, s: Sys, input: TurnInput)
    requires ConfigOk(cfg) && s.process.Up? && s.process.next >= 1 && input.head < s.process.next + cfg.confirmations
    ensures var s' := PollPart(byTx, cfg, w, s, input); s'.db == s.db && s'.process == s.process
  {
  }

  // ---------------------------------------------------------------- a mismatched tip

  /** A turn of a process that is up counts one tick. */
  lemma TurnTicks(byTx: Schema, cfg: Config, w: World, s: Sys, input: TurnInput, s': Sys)
    requires ConfigOk(cfg) && TurnLeads(byTx, cfg, w, s, input, s') && s'.process.Up?
    ensures s'.process.tick == s.process.tick + 1
  {
    var s2 := AtHeadPoll(cfg, s, input);
    assert s2.process.tick == s.process.tick + 1;
    var s3 := PollPart(byTx, cfg, w, s2, input);
    assert s3.process.Up? ==> s3.process.tick == s2.process.tick;
  }

  lemma {:induction false} TicksCount(byTx: Schema, cfg: Config, w: World, states: seq<Sys>, inputs: seq<TurnInput>, k: nat)
    requires ConfigOk(cfg) && TurnsOf(byTx, cfg, w, states, inputs) && k < |inputs|
    ensures states[k].process.Up? && states[0].process.Up? && states[k].process.tick == states[0].process.tick + k
  {
    assert TurnLeads(byTx, cfg, w, states[k], inputs[k], states[k + 1]);
    if k > 0 {
      var j := k - 1;
      TicksCount(byTx, cfg, w, states, inputs, j);
      assert TurnLeads(byTx, cfg, w, states[j], inputs[j], states[k]);
      TurnTicks(byTx, cfg, w, states[j], inputs[j], states[k]);
    }
  }

  /** The check of the turn fired: rows from just above the confirmation-deep fork on are gone, and the
      loop restarts there with a sweep owed. */
  ghost predicate RollsBack(cfg: Config, s: Sys, input: TurnInput, tip: nat)
    requires s.process.Up?
  {
    var from := if tip > cfg.confirmations then tip - cfg.confirmations + 1 else 1;
    var s2 := AtHeadPoll(cfg, s, input);
    && s2.db == RolledBack(s.db, cfg.chain, from, Named(cfg.tables))
    && s2.process.next == from && s2.process.tip.reconcile && s2.process.tip.reorgAt.None?
  }

  /** On the poll path, after a removal signal and on every sixteenth tick, a mismatch at the stored tip
      makes the turn roll back. */
  lemma MismatchRollsBack(cfg: Config, s: Sys, input: TurnInput, tip: nat)
    requires s.process.Up? && cfg.supportsReorg && Mismatch(s.db, cfg.chain, tip, input.reported)
    requires !s.process.tip.wsEnabled || s.process.tip.reorgAt.Some? || s.process.tick % 16 == 15
    ensures RollsBack(cfg, s, input, tip)
  {
    var s1 := SubscribePart(s, input);
    assert s1.db == s.db && Probes(s1.process);
    FiredProbe(cfg, s1, input, tip);
  }

  lemma ToSixteenth(tick: nat) returns (k: nat)
    ensures k < 16 && (tick + k) % 16 == 15
  {
    k := 15 - tick % 16;
  }

  /** The source's hash for the stored tip is not the stored one. */
  ghost predicate Disagrees(cfg: Config, s: Sys, input: TurnInput, tip: nat) {
    Mismatch(s.db, cfg.chain, tip, input.reported)
  }

  lemma SixteenthRollsBack(cfg: Config, s: Sys, input: TurnInput, tip: nat, tick: nat)
    requires s.process.Up? && cfg.supportsReorg && Disagrees(cfg, s, input, tip) && s.process.tick == tick && tick % 16 == 15
    ensures RollsBack(cfg, s, input, tip)
  {
    MismatchRollsBack(cfg, s, input, tip);
  }

  /** Otherwise the source is not asked: whatever it would have answered, the turn goes on as it was. */
  lemma NoProbeOtherwise(cfg: Config, s: Sys, input: TurnInput, reported: Option<Hash>)
    requires s.process.Up? && s.process.tip.wsEnabled && s.process.tip.reorgAt.None? && s.process.tick % 16 != 15
    ensures AtHeadPoll(cfg, s, input) == AtHeadPoll(cfg, s, input.(reported := reported))
    ensures AtHeadPoll(cfg, s, input).db == s.db && AtHeadPoll(cfg, s, input).process.next == s.process.next
  {
  }

  /** Of any sixteen turns in which the source disagrees with the stored tip, one rolls back. */
  lemma MismatchIsNoticed(byTx: Schema, cfg: Config, w: World, states: seq<Sys>, inputs: seq<TurnInput>, tips: seq<nat>) returns (k: nat)
    requires ConfigOk(cfg) && TurnsOf(byTx, cfg, w, states, inputs) && |inputs| == 16 == |tips| && cfg.supportsReorg
    requires forall i {:trigger tips[i]} :: 0 <= i < 16 ==> Disagrees(cfg, states[i], inputs[i], tips[i])
    ensures k < 16 && states[k].process.Up? && RollsBack(cfg, states[k], inputs[k], tips[k])
  {
    TicksCount(byTx, cfg, w, states, inputs, 0);
    var tick := states[0].process.tick;
    k := ToSixteenth(tick);
    TicksCount(byTx, cfg, w, states, inputs, k);
    SixteenthRollsBack(cfg, states[k], inputs[k], tips[k], tick + k);
  }

  // ---------------------------------------------------------------- catching up

  /** Everything the drive planned arrives and it ends well. */
  ghost predicate DriveCompletes(cfg: Config, w: World, next: nat, target: nat, drive: DriveScript)
    requires ConfigOk(cfg)
  {
    var n := |Window(w, cfg.chain, next, target, cfg.step)|;
    drive.end.Finished? && Complete(Sanitized(drive.order, n), n)
  }

  /** The turn's source answers: a head whose safe tip is `safe`, no mismatch, and a drive that
      completes. */
  ghost predicate Serves(cfg: Config, w: World, next: nat, safe: nat, input: TurnInput)
    requires ConfigOk(cfg)
  {
    && !input.stop && input.reported.None? && Safe(cfg, input.head) == safe
    && DriveCompletes(cfg, w, next, Min(safe, next + cfg.step * cfg.concurrency - 1), input.drive)
  }

  /** A sweep is wanted: there is no stream, one is owed, or a pushed height is safe. */
  predicate WantsSweep(tip: Tip, safe: nat) {
    !tip.wsEnabled || tip.reconcile || exists p :: p in tip.pending && p <= safe
  }

  /** The loop swept one full window, or to the safe tip: `next`, cursor, what is pending and owed. */
  ghost predicate SweptTo(cfg: Config, before: Sys, after: Sys, end: nat, safe: nat) {
    && before.process.Up? && after.process.Up? && after.process.next == end + 1
    && after.process.tip.reconcile == (end < safe)
    && (forall p :: p in after.process.tip.pending <==> p in before.process.tip.pending && p > end)
    && cfg.chain in after.db.cursors && after.db.cursors[cfg.chain].height == end
  }

  lemma DriveFinishes(cfg: Config, w: World, next: nat, end: nat, drive: DriveScript, a: Attempt)
    requires ConfigOk(cfg) && DriveCompletes(cfg, w, next, end, drive) && a == AttemptOf(w, cfg.chain, next, end, cfg.step, drive)
    ensures a == Attempt(end, cfg.step, a.order, false) && EndOf(w, cfg.chain, next, a, drive).Finished?
    ensures Arrivals(a.order, |Window(w, cfg.chain, next, end, cfg.step)|) && Complete(a.order, |Window(w, cfg.chain, next, end, cfg.step)|)
  {
  }

  /** The sweep itself. */
  lemma SweepsWindow(byTx: Schema, cfg: Config, w: World, s: Sys, safe: nat, drive: DriveScript, end: nat, after: Sys)
    requires WellFormed(w) && SchemaOk(byTx) && ConfigOk(cfg) && Canonical(byTx, s.db, w)
    requires s.process.Up? && 1 <= s.process.next <= end == FetchTarget(safe, s.process.next, cfg.step, cfg.concurrency, true)
    requires DriveCompletes(cfg, w, s.process.next, end, drive) && after == SweepPart(byTx, cfg, w, s, safe, drive)
    ensures SweptRange(byTx, w, cfg.chain, s.db, after.db, s.process.next, end)
    ensures after.process == s.process.(next := end + 1, tip := ClearedThrough(s.process.tip.(reconcile := end + 1 <= safe), end))
  {
    var c, next := cfg.chain, s.process.next;
    var a := AttemptOf(w, c, next, end, cfg.step, drive);
    DriveFinishes(cfg, w, next, end, drive, a);
    FullDrive(byTx, w, c, s.db, next, end, cfg.step, a.order, Driven(byTx, w, c, s.db, Window(w, c, next, end, cfg.step), next, a.order));
  }

  lemma FullWindow(byTx: Schema, cfg: Config, w: World, s: Sys, safe: nat, input: TurnInput, end: nat, after: Sys)
    requires WellFormed(w) && SchemaOk(byTx) && ConfigOk(cfg) && Canonical(byTx, s.db, w)
    requires s.process.Up? && 1 <= s.process.next <= safe && WantsSweep(s.process.tip, safe) && Serves(cfg, w, s.process.next, safe, input)
    requires end == Min(safe, s.process.next + cfg.step * cfg.concurrency - 1) && after == PollPart(byTx, cfg, w, s, input)
    ensures SweptTo(cfg, s, after, end, safe)
    ensures AllCovered(byTx, after.db, w, cfg.chain, s.process.next, end) && Canonical(byTx, after.db, w)
  {
    MulMonotone(1, cfg.concurrency, cfg.step);
    var seen := s.(past := s.past.(head := input.head));
    SweepsWindow(byTx, cfg, w, seen, safe, input.drive, end, SweepPart(byTx, cfg, w, seen, safe, input.drive));
  }

  /** A sweep whose drive is told to stop, or fails, ends the process. */
  lemma UnfinishedDriveStops(byTx: Schema, cfg: Config, w: World, s: Sys, safe: nat, input: TurnInput)
    requires ConfigOk(cfg) && s.process.Up? && 1 <= s.process.next <= safe && WantsSweep(s.process.tip, safe)
    requires Safe(cfg, input.head) == safe && !input.drive.end.Finished?
    ensures PollPart(byTx, cfg, w, s, input).process.Down?
  {
  }

  lemma QuietPoll(cfg: Config, s: Sys, input: TurnInput)
    requires s.process.Up? && input.reported.None?
    ensures var s2 := AtHeadPoll(cfg, s, input);
            && s2.db == s.db && s2.process.next == s.process.next && s2.process.tip.pending == s.process.tip.pending
            && s2.process.tip.wsEnabled == s.process.tip.wsEnabled && (s.process.tip.reconcile ==> s2.process.tip.reconcile)
  {
    assert forall t :: !Mismatch(s.db, cfg.chain, t, input.reported);
  }

  /** One turn of a loop that is behind: a full window, or what is left to the safe tip. While it is
      still behind after that, it takes the next turn without listening to anything. */
  lemma TurnCatchesUp(byTx: Schema, cfg: Config, w: World, s: Sys, safe: nat, input: TurnInput, end: nat)
    requires WellFormed(w) && SchemaOk(byTx) && ConfigOk(cfg) && Canonical(byTx, s.db, w)
    requires s.process.Up? && 1 <= s.process.next <= safe && WantsSweep(s.process.tip, safe) && Serves(cfg, w, s.process.next, safe, input)
    requires end == Min(safe, s.process.next + cfg.step * cfg.concurrency - 1)
    ensures var s2 := AtHeadPoll(cfg, s, input);
            var polled := PollPart(byTx, cfg, w, s2, input);
            && SweptTo(cfg, s, polled, end, safe)
            && AllCovered(byTx, polled.db, w, cfg.chain, s.process.next, end) && Canonical(byTx, polled.db, w)
            && Turn(byTx, cfg, w, s, input) == if end < safe then polled else WakePart(polled, input.wake)
  {
    QuietPoll(cfg, s, input);
    var s2 := AtHeadPoll(cfg, s, input);
    FullWindow(byTx, cfg, w, s2, safe, input, end, PollPart(byTx, cfg, w, s2, input));
  }

  /** Where the loop is after `k` turns at a fixed safe tip it has not reached yet. */
  ghost predicate BehindBy(byTx: Schema, cfg: Config, w: World, s: Sys, next: nat) {
    s.process.Up? && s.process.next == next && Canonical(byTx, s.db, w)
  }

  lemma OneWindow(byTx: Schema, cfg: Config, w: World, s: Sys, input: TurnInput, s': Sys, safe: nat, next: nat, width: nat)
    requires WellFormed(w) && SchemaOk(byTx) && ConfigOk(cfg) && TurnLeads(byTx, cfg, w, s, input, s')
    requires width == cfg.step * cfg.concurrency && next >= 1 && next + width <= safe
    requires BehindBy(byTx, cfg, w, s, next) && WantsSweep(s.process.tip, safe) && Serves(cfg, w, next, safe, input)
    ensures BehindBy(byTx, cfg, w, s', next + width) && WantsSweep(s'.process.tip, safe)
  {
    MulMonotone(1, cfg.concurrency, cfg.step);
    TurnCatchesUp(byTx, cfg, w, s, safe, input, next + width - 1);
  }

  /** A loop that wants a sweep, at a fixed safe tip, with a source that serves it: as long as `k` full
      windows do not reach the tip it is exactly `k` windows further after `k` turns. */
  lemma {:induction false} WindowsAdd(
    byTx: Schema, cfg: Config, w: World, states: seq<Sys>, inputs: seq<TurnInput>, safe: nat, start: nat, width: nat, k: nat)
    requires WellFormed(w) && SchemaOk(byTx) && ConfigOk(cfg) && TurnsOf(byTx, cfg, w, states, inputs) && k <= |inputs|
    requires width == cfg.step * cfg.concurrency && start >= 1 && start + k * width <= safe
    requires BehindBy(byTx, cfg, w, states[0], start) && WantsSweep(states[0].process.tip, safe)
    requires forall i {:trigger inputs[i]} :: 0 <= i < k ==> Serves(cfg, w, start + i * width, safe, inputs[i])
    ensures BehindBy(byTx, cfg, w, states[k], start + k * width) && WantsSweep(states[k].process.tip, safe)
  {
    if k > 0 {
      var j := k - 1;
      assert k * width == j * width + width;
      WindowsAdd(byTx, cfg, w, states, inputs, safe, start, width, j);
      assert TurnLeads(byTx, cfg, w, states[j], inputs[j], states[k]);
      assert Serves(cfg, w, start + j * width, safe, inputs[j]);
      OneWindow(byTx, cfg, w, states[j], inputs[j], states[k], safe, start + j * width, width);
    }
  }

  /** And the turn after the last full window ends at the safe tip: everything from the start on is
      committed up to it by that turn's poll, the cursor is there and no sweep is owed. */
  lemma ReachesSafeTip(
    byTx: Schema, cfg: Config, w: World, states: seq<Sys>, inputs: seq<TurnInput>, safe: nat, start: nat, width: nat, k: nat)
    requires WellFormed(w) && SchemaOk(byTx) && ConfigOk(cfg) && TurnsOf(byTx, cfg, w, states, inputs) && k < |inputs|
    requires width == cfg.step * cfg.concurrency && start >= 1 && start + k * width <= safe < start + (k + 1) * width
    requires BehindBy(byTx, cfg, w, states[0], start) && WantsSweep(states[0].process.tip, safe)
    requires forall i {:trigger inputs[i]} :: 0 <= i <= k ==> Serves(cfg, w, start + i * width, safe, inputs[i])
    ensures states[k].process.Up? && states[k].process.next == start + k * width
    ensures SweptTo(cfg, states[k], PollPart(byTx, cfg, w, AtHeadPoll(cfg, states[k], inputs[k]), inputs[k]), safe, safe)
  {
    WindowsAdd(byTx, cfg, w, states, inputs, safe, start, width, k);
    assert Serves(cfg, w, start + k * width, safe, inputs[k]);
    assert (k + 1) * width == k * width + width;
    TurnCatchesUp(byTx, cfg, w, states[k], safe, inputs[k], safe);
  }
}
