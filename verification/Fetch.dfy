/** Adaptive `eth_getLogs`: density-sized seed spans on a LIFO stack, halved when a page
    overflows the provider's result cap. */
module Fetch {
  import opened Model
  import opened Plan

  // ---------------------------------------------------------------- errors and retries

  predicate Contains(text: string, part: string) {
    exists i :: 0 <= i <= |text| && part <= text[i..]
  }

  function LowerChar(c: char): char {
    if 'A' <= c <= 'Z' then (c as int - 'A' as int + 'a' as int) as char else c
  }

  function Lower(text: string): string {
    seq(|text|, i requires 0 <= i < |text| => LowerChar(text[i]))
  }

  /** The provider says the range or its result was too big: split, do not give up. */
  predicate IsRangeCapError(error: string) {
    var e := Lower(error);
    || Contains(e, "more than")
    || Contains(e, "too large")
    || Contains(e, "response size")
    || Contains(e, "range is too")
    || Contains(e, "query timeout")
  }

  predicate IsTransient(error: string) {
    var e := Lower(error);
    || Contains(e, "429")
    || Contains(e, "limit")
    || Contains(e, "too many requests")
    || Contains(e, "timeout")
    || Contains(e, "timed out")
    || Contains(e, "503")
    || Contains(e, "502")
    || Contains(e, "connection")
  }

  /** The phrase, of which no letter is a capital, stands at `i` in the text, in capitals or not. */
  predicate SaysAt(text: string, phrase: string, i: nat) {
    i + |phrase| <= |text| &&
    forall j {:trigger phrase[j]} :: 0 <= j < |phrase| ==>
      text[i + j] == phrase[j] || ('a' <= phrase[j] <= 'z' && text[i + j] as int + 32 == phrase[j] as int)
  }

  predicate Says(text: string, phrase: string) {
    exists i :: 0 <= i <= |text| && SaysAt(text, phrase, i)
  }

  lemma PhraseAt(text: string, phrase: string, i: nat)
    requires i <= |text| && forall j :: 0 <= j < |phrase| ==> !('A' <= phrase[j] <= 'Z')
    ensures phrase <= Lower(text)[i..] <==> SaysAt(text, phrase, i)
  {
    var rest := Lower(text)[i..];
    if i + |phrase| <= |text| {
      forall j | 0 <= j < |phrase|
        ensures rest[j] == phrase[j] <==>
                text[i + j] == phrase[j] || ('a' <= phrase[j] <= 'z' && text[i + j] as int + 32 == phrase[j] as int)
      {
        assert rest[j] == LowerChar(text[i + j]);
      }
      assert phrase <= rest <==> forall j :: 0 <= j < |phrase| ==> rest[j] == phrase[j];
    }
  }

  lemma SaysIsContains(text: string, phrase: string)
    requires forall j :: 0 <= j < |phrase| ==> !('A' <= phrase[j] <= 'Z')
    ensures Contains(Lower(text), phrase) <==> Says(text, phrase)
  {
    forall i: nat | i <= |text|
      ensures phrase <= Lower(text)[i..] <==> SaysAt(text, phrase, i)
    {
      PhraseAt(text, phrase, i);
    }
    if Says(text, phrase) {
      var i :| 0 <= i <= |text| && SaysAt(text, phrase, i);
      assert phrase <= Lower(text)[i..];
    }
  }

  /** The client splits a range exactly on what providers say of one that is too big. */
  lemma RangeCapPhrases(error: string)
    ensures IsRangeCapError(error) <==>
            || Says(error, "more than") || Says(error, "too large") || Says(error, "response size")
            || Says(error, "range is too") || Says(error, "query timeout")
  {
    SaysIsContains(error, "more than");
    SaysIsContains(error, "too large");
    SaysIsContains(error, "response size");
    SaysIsContains(error, "range is too");
    SaysIsContains(error, "query timeout");
  }

  /** And tries again exactly on what they say of one that may pass. */
  lemma TransientPhrases(error: string)
    ensures IsTransient(error) <==>
            || Says(error, "429") || Says(error, "limit") || Says(error, "too many requests") || Says(error, "timeout")
            || Says(error, "timed out") || Says(error, "503") || Says(error, "502") || Says(error, "connection")
  {
    SaysIsContains(error, "429");
    SaysIsContains(error, "limit");
    SaysIsContains(error, "too many requests");
    SaysIsContains(error, "timeout");
    SaysIsContains(error, "timed out");
    SaysIsContains(error, "503");
    SaysIsContains(error, "502");
    SaysIsContains(error, "connection");
  }

  /** What the provider answers to the n-th request it receives, for a given span. */
  type Provider<!L> = (nat, Span) -> Result<seq<L>, string>

  const MAX_ATTEMPTS := 6

  /** Repeats a request while it fails transiently, at most six times in all. `sent` counts the
      requests made before this one. */
  method WithRetry<L>(provider: Provider<L>, sent: nat, span: Span)
    returns (answer: Result<seq<L>, string>, attempts: nat)
    ensures 1 <= attempts <= MAX_ATTEMPTS
    ensures answer == provider(sent + attempts - 1, span)
    ensures answer.Err? ==> attempts == MAX_ATTEMPTS || !IsTransient(answer.error)
    ensures forall k :: sent <= k < sent + attempts - 1 ==>
              provider(k, span).Err? && IsTransient(provider(k, span).error)
  {
    attempts := 0;
    while true
      invariant attempts < MAX_ATTEMPTS
      invariant forall k :: sent <= k < sent + attempts ==>
                  provider(k, span).Err? && IsTransient(provider(k, span).error)
      decreases MAX_ATTEMPTS - attempts
    {
      answer := provider(sent + attempts, span);
      attempts := attempts + 1;
      if answer.Ok? {
        return;
      }
      if !IsTransient(answer.error) || attempts == MAX_ATTEMPTS {
        return;
      }
    }
  }

  // ---------------------------------------------------------------- spans

  function SplitRange(lo: nat, hi: nat): (halves: (Span, Span))
    requires lo < hi
    ensures Tiles([halves.0, halves.1], lo, hi)
    ensures var left, right := halves.0.hi - halves.0.lo, halves.1.hi - halves.1.lo; right <= left <= right + 1
  {
    var mid := lo + (hi - lo) / 2;
    var halves := (Span(lo, mid), Span(mid + 1, hi));
    assert [halves.0, halves.1][1..] == [halves.1];
    assert Tiles([halves.1], mid + 1, hi);
    halves
  }

  /** A stack, top last, whose spans popped in turn cover `from..=to` from the bottom up. */
  predicate StackTiles(stack: seq<Span>, from: nat, to: int) {
    if stack == [] then from == to + 1
    else
      var top := stack[|stack| - 1];
      && top.lo == from <= top.hi <= to
      && StackTiles(stack[..|stack| - 1], top.hi + 1, to)
  }

  function Reverse(spans: seq<Span>): seq<Span> {
    if spans == [] then [] else Reverse(spans[1..]) + [spans[0]]
  }

  lemma {:induction false} ReverseKeeps(spans: seq<Span>)
    ensures forall s :: s in Reverse(spans) <==> s in spans
  {
    if spans != [] {
      ReverseKeeps(spans[1..]);
      assert spans == [spans[0]] + spans[1..];
    }
  }

  lemma {:induction false} ReversedTilesStack(spans: seq<Span>, from: nat, to: int)
    requires Tiles(spans, from, to)
    ensures StackTiles(Reverse(spans), from, to)
    ensures |Reverse(spans)| == |spans|
  {
    if spans == [] {
    } else {
      ReversedTilesStack(spans[1..], spans[0].hi + 1, to);
      var stack := Reverse(spans);
      assert stack[..|stack| - 1] == Reverse(spans[1..]);
    }
  }

  lemma SeedsTile(from: nat, to: nat, span: nat)
    requires from <= to && span >= 1
    ensures Tiles(PlannedSpans(from, to, span), from, to)
    ensures forall s :: s in PlannedSpans(from, to, span) ==> s.hi - s.lo < span && (s.hi == to || s.hi - s.lo == span - 1)
  {
    MulMonotone(1, span, to + 1);
    PlannedSpansTile(from, to, span, to + 1);
  }

  /** Requests a stack can still cost: one less than twice the blocks of each span. */
  function Weight(stack: seq<Span>): int {
    if stack == [] then 0
    else
      var top := stack[|stack| - 1];
      2 * (top.hi - top.lo + 1) - 1 + Weight(stack[..|stack| - 1])
  }

  lemma {:induction false} WeightOfTiles(stack: seq<Span>, from: nat, to: int)
    requires StackTiles(stack, from, to)
    ensures Weight(stack) == 2 * (to - from + 1) - |stack|
    ensures Weight(stack) >= |stack|
  {
    if stack != [] {
      WeightOfTiles(stack[..|stack| - 1], stack[|stack| - 1].hi + 1, to);
    }
  }

  /** Replacing the top span by its halves, lower half on top. */
  function Halved(stack: seq<Span>): seq<Span>
    requires stack != [] && stack[|stack| - 1].lo < stack[|stack| - 1].hi
  {
    var top := stack[|stack| - 1];
    var (left, right) := SplitRange(top.lo, top.hi);
    stack[..|stack| - 1] + [right] + [left]
  }

  /** Halving the top of a stack keeps what it covers and lowers its weight by one. */
  lemma HalvingKeepsTiles(stack: seq<Span>, from: nat, to: int)
    requires StackTiles(stack, from, to)
    requires stack != [] && stack[|stack| - 1].lo < stack[|stack| - 1].hi
    ensures StackTiles(Halved(stack), from, to)
    ensures Weight(Halved(stack)) == Weight(stack) - 1
  {
  }

  /** Popping a stack leaves the part above the popped span and lowers the weight. */
  lemma PoppingKeepsTiles(stack: seq<Span>, from: nat, to: int)
    requires StackTiles(stack, from, to) && stack != []
    ensures var top, rest := stack[|stack| - 1], stack[..|stack| - 1];
            && from == top.lo <= top.hi <= to
            && StackTiles(rest, top.hi + 1, to)
            && 0 <= Weight(rest) < Weight(stack)
  {
    WeightOfTiles(stack[..|stack| - 1], stack[|stack| - 1].hi + 1, to);
  }

  // ---------------------------------------------------------------- the per-block answer

  /** The simple answer: the logs of each block in turn. */
  function RangeLogs<L>(logsAt: nat -> seq<L>, lo: nat, hi: int): seq<L>
    decreases hi - lo
  {
    if lo > hi then [] else logsAt(lo) + RangeLogs(logsAt, lo + 1, hi)
  }

  lemma {:induction false} RangeLogsJoin<L>(logsAt: nat -> seq<L>, lo: nat, mid: int, hi: int)
    requires lo <= mid + 1 && mid <= hi
    ensures RangeLogs(logsAt, lo, mid) + RangeLogs(logsAt, mid + 1, hi) == RangeLogs(logsAt, lo, hi)
    decreases mid - lo + 1
  {
    if lo <= mid {
      RangeLogsJoin(logsAt, lo + 1, mid, hi);
      assert logsAt(lo) + (RangeLogs(logsAt, lo + 1, mid) + RangeLogs(logsAt, mid + 1, hi)) ==
             logsAt(lo) + RangeLogs(logsAt, lo + 1, mid) + RangeLogs(logsAt, mid + 1, hi);
    } else {
      assert mid + 1 == lo;
    }
  }

  /** A page the client keeps: below the cap, or of a single block, or with no cap set. */
  predicate Accepts(cap: nat, span: Span, page: nat) {
    !(span.lo < span.hi && cap > 0 && page >= cap)
  }

  /** Whatever the provider truncates or refuses, a page is complete when it is shorter than the cap, of a
      single block, or when there is no cap. */
  ghost predicate CompletePages<L(!new)>(provider: Provider<L>, logsAt: nat -> seq<L>, cap: nat) {
    forall n: nat, span: Span ::
      span.lo <= span.hi && provider(n, span).Ok? && (|provider(n, span).value| < cap || span.lo == span.hi || cap == 0) ==>
        provider(n, span).value == RangeLogs(logsAt, span.lo, span.hi)
  }

  /** `acc` is what the simple answer gives for the blocks from `from` up to `at`. */
  ghost predicate Gathered<L(!new)>(
    provider: Provider<L>, logsAt: nat -> seq<L>, cap: nat, from: nat, at: nat, acc: seq<L>)
  {
    CompletePages(provider, logsAt, cap) ==> acc == RangeLogs(logsAt, from, at - 1)
  }

  lemma GatherPage<L(!new)>(
    provider: Provider<L>, logsAt: nat -> seq<L>, cap: nat, from: nat, span: Span, acc: seq<L>, n: nat)
    requires from <= span.lo <= span.hi && provider(n, span).Ok? && Accepts(cap, span, |provider(n, span).value|)
    requires Gathered(provider, logsAt, cap, from, span.lo, acc)
    ensures Gathered(provider, logsAt, cap, from, span.hi + 1, acc + provider(n, span).value)
  {
    RangeLogsJoin(logsAt, from, span.lo - 1, span.hi);
  }

  /** An answer the client gives up on. */
  ghost predicate GivesUp<L(!new)>(provider: Provider<L>, from: nat, to: nat) {
    exists n: nat, span: Span :: from <= span.lo <= span.hi <= to && provider(n, span).Err? &&
      (span.lo == span.hi || !IsRangeCapError(provider(n, span).error))
  }

  // ---------------------------------------------------------------- density

  const MAX_U64: nat := 0xFFFF_FFFF_FFFF_FFFF

  function SaturatingMul(a: nat, b: nat): nat {
    Min(a * b, MAX_U64)
  }

  /** Blocks to ask for at once, aiming at four fifths of the result cap. */
  function SpanFor(density: nat, cap: nat, maxBlocks: nat): (span: nat)
    ensures 1 <= span && (span <= maxBlocks || span == 1)
  {
    var ceiling := if maxBlocks == 0 then 1 else maxBlocks;
    if cap == 0 || density == 0 then ceiling
    else
      var aim := SaturatingMul(cap, 800) / density;
      Min(if aim == 0 then 1 else aim, ceiling)
  }

  function Sample(blocks: nat, logs: nat): nat
    requires blocks > 0
  {
    SaturatingMul(logs, 1000) / blocks
  }

  /** The moving average after one more sample, in 64-bit arithmetic that wraps; zero means unknown. */
  function Folded(old_: nat, sample: nat): nat {
    if old_ == 0 then sample else (old_ * 7 + sample) % (MAX_U64 + 1) / 8
  }

  /** With no estimate or no cap the seed is the provider's ceiling. */
  lemma UnknownSeedsTheCeiling(density: nat, cap: nat, maxBlocks: nat)
    requires density == 0 || cap == 0
    ensures SpanFor(density, cap, maxBlocks) == if maxBlocks >= 1 then maxBlocks else 1
  {
  }

  /** With one, it is the longest span under the ceiling whose expected logs stay within four fifths of
      the cap, and at least one block. */
  lemma SeedAimsAtFourFifths(density: nat, cap: nat, maxBlocks: nat, span: nat)
    requires density > 0 && cap > 0 && cap * 800 <= MAX_U64 && span == SpanFor(density, cap, maxBlocks)
    ensures span == 1 || span * density <= cap * 800
    ensures span >= maxBlocks || cap * 800 < (span + 1) * density
  {
    var aim := cap * 800 / density;
    assert cap * 800 == aim * density + cap * 800 % density;
    MulMonotone(span, if aim == 0 then 1 else aim, density);
  }

  /** A sample is the logs per thousand blocks, rounded down; a product past 64 bits counts as the largest
      64-bit number. */
  lemma SampleMeans(blocks: nat, logs: nat)
    requires blocks > 0
    ensures var product := if logs * 1000 <= MAX_U64 then logs * 1000 else MAX_U64;
            Sample(blocks, logs) * blocks <= product < (Sample(blocks, logs) + 1) * blocks
  {
    var product := if logs * 1000 <= MAX_U64 then logs * 1000 else MAX_U64;
    assert product == product / blocks * blocks + product % blocks;
  }

  /** The first sample is taken as it is; each later one weighs one eighth. */
  lemma FoldedMeans(old_: nat, sample: nat)
    ensures old_ == 0 ==> Folded(old_, sample) == sample
    ensures old_ > 0 && 7 * old_ + sample <= MAX_U64 ==>
              8 * Folded(old_, sample) <= 7 * old_ + sample < 8 * (Folded(old_, sample) + 1)
  {
  }

  // ---------------------------------------------------------------- the client

  /** What became of one span: its page kept, its range to be split, or the fetch failed. */
  datatype Outcome<L> = Kept(page: seq<L>) | Overflow | Failed(error: string)

  class RpcLogSource {
    var densityMilli: nat
    const maxGetlogsBlocks: nat
    const maxGetlogsResults: nat

    constructor (maxGetlogsBlocks: nat, maxGetlogsResults: nat)
      ensures densityMilli == 0
      ensures this.maxGetlogsBlocks == maxGetlogsBlocks && this.maxGetlogsResults == maxGetlogsResults
    {
      this.maxGetlogsBlocks := maxGetlogsBlocks;
      this.maxGetlogsResults := maxGetlogsResults;
      densityMilli := 0;
    }

    method SuggestedSpan() returns (span: nat)
      ensures span == SpanFor(densityMilli, maxGetlogsResults, maxGetlogsBlocks)
    {
      var maxBlocks := if maxGetlogsBlocks == 0 then 1 else maxGetlogsBlocks;
      if maxGetlogsResults == 0 || densityMilli == 0 {
        return maxBlocks;
      }
      var aim := SaturatingMul(maxGetlogsResults, 800) / densityMilli;
      span := if aim < 1 then 1 else aim;
      span := Min(span, maxBlocks);
    }

    method RecordDensity(blocks: nat, logs: nat)
      modifies this
      ensures densityMilli == if blocks == 0 then old(densityMilli) else Folded(old(densityMilli), Sample(blocks, logs))
    {
      if blocks == 0 {
        return;
      }
      var sample := SaturatingMul(logs, 1000) / blocks;
      var old_ := densityMilli;
      densityMilli := if old_ == 0 then sample else (old_ * 7 + sample) % (MAX_U64 + 1) / 8;
    }

    /** Density-sized consecutive spans of `from..=to`, lowest on top of the stack. */
    method SeedStack(from: nat, to: nat) returns (stack: seq<Span>)
      ensures from <= to ==> StackTiles(stack, from, to)
      ensures from > to ==> stack == []
      ensures forall s :: s in stack ==> s.hi == to || s.hi - s.lo + 1 == SpanFor(densityMilli, maxGetlogsResults, maxGetlogsBlocks)
      ensures forall s :: s in stack ==> s.hi - s.lo + 1 <= SpanFor(densityMilli, maxGetlogsResults, maxGetlogsBlocks)
    {
      var span := SuggestedSpan();
      var chunks := PlanRanges(from, to, span);
      stack := Reverse(chunks);
      if from <= to {
        SeedsTile(from, to, span);
        ReversedTilesStack(chunks, from, to);
        ReverseKeeps(chunks);
      }
    }

    /** Asks for one span and decides whether to keep the page, split the span or fail. */
    method Ask<L(!new)>(provider: Provider<L>, sent: nat, span: Span) returns (outcome: Outcome<L>, tries: nat)
      requires span.lo <= span.hi
      modifies this
      ensures 1 <= tries <= MAX_ATTEMPTS
      ensures outcome.Kept? ==>
                && provider(sent + tries - 1, span) == Ok(outcome.page)
                && Accepts(maxGetlogsResults, span, |outcome.page|)
      ensures outcome.Overflow? ==>
                && span.lo < span.hi
                && match provider(sent + tries - 1, span)
                   case Ok(page) => 0 < maxGetlogsResults <= |page|
                   case Err(e) => IsRangeCapError(e)
      ensures densityMilli == if outcome.Kept? then Folded(old(densityMilli), Sample(span.hi - span.lo + 1, |outcome.page|))
                              else old(densityMilli)
      ensures outcome.Failed? ==>
                && provider(sent + tries - 1, span) == Err(outcome.error)
                && (span.lo == span.hi || !IsRangeCapError(outcome.error))
    {
      var answer, n := WithRetry(provider, sent, span);
      tries := n;
      match answer
      case Ok(page) =>
        if span.lo < span.hi && maxGetlogsResults > 0 && |page| >= maxGetlogsResults {
          outcome := Overflow;
        } else {
          RecordDensity(span.hi - span.lo + 1, |page|);
          outcome := Kept(page);
        }
      case Err(e) =>
        outcome := if span.lo < span.hi && IsRangeCapError(e) then Overflow else Failed(e);
    }

    /** Pops the top span: its page joins the answer, or its halves go back on the stack. */
    method ServeTop<L(!new)>(
        provider: Provider<L>, ghost logsAt: nat -> seq<L>, ghost from: nat, ghost at: nat, ghost to: nat,
        pending: seq<Span>, acc: seq<L>, sent: nat)
      returns (outcome: Outcome<L>, pending': seq<Span>, acc': seq<L>, tries: nat, ghost at': nat)
      requires pending != [] && StackTiles(pending, at, to) && from <= at
      requires Gathered(provider, logsAt, maxGetlogsResults, from, at, acc)
      modifies this
      ensures 1 <= tries <= MAX_ATTEMPTS && 1 <= Weight(pending)
      ensures outcome.Failed? ==> GivesUp(provider, from, to)
      ensures !outcome.Failed? ==>
                && StackTiles(pending', at', to) && from <= at'
                && Gathered(provider, logsAt, maxGetlogsResults, from, at', acc')
                && 0 <= Weight(pending') < Weight(pending)
                && |pending'| == (if outcome.Kept? then |pending| - 1 else |pending| + 1)
    {
      var span := pending[|pending| - 1];
      PoppingKeepsTiles(pending, at, to);
      outcome, tries := Ask(provider, sent, span);
      pending', acc', at' := pending, acc, at;
      match outcome
      case Failed(e) =>
      case Kept(page) =>
        GatherPage(provider, logsAt, maxGetlogsResults, from, span, acc, sent + tries - 1);
        acc', at' := acc + page, span.hi + 1;
        pending' := pending[..|pending| - 1];
      case Overflow =>
        HalvingKeepsTiles(pending, at, to);
        WeightOfTiles(Halved(pending), at, to);
        var (left, right) := SplitRange(span.lo, span.hi);
        pending' := pending[..|pending| - 1] + [right] + [left];
    }

    /** Serves the stack until it is empty. Returns the pages joined, the rounds and attempts it took,
        the pages kept and the seeds planted. */
    method CollectPages<L(!new)>(provider: Provider<L>, ghost logsAt: nat -> seq<L>, from: nat, to: nat)
      returns (logs: Result<seq<L>, string>, rounds: nat, attempts: nat, pages: nat, seeds: nat)
      modifies this
      ensures CompletePages(provider, logsAt, maxGetlogsResults) && logs.Ok? ==>
                logs.value == RangeLogs(logsAt, from, to)
      ensures logs.Err? ==> GivesUp(provider, from, to)
      ensures attempts <= MAX_ATTEMPTS * rounds
      ensures from <= to ==> 1 <= seeds && rounds <= 2 * (to - from + 1) - seeds
      ensures from > to ==> rounds == 0
      ensures logs.Ok? ==> rounds + seeds == 2 * pages
    {
      var pending := SeedStack(from, to);
      seeds := |pending|;
      rounds, attempts, pages := 0, 0, 0;
      if from > to {
        return Ok([]), 0, 0, 0, 0;
      }
      var acc: seq<L> := [];
      ghost var at := from;
      WeightOfTiles(pending, at, to);
      ghost var budget := Weight(pending);
      while pending != []
        invariant StackTiles(pending, at, to) && from <= at
        invariant 0 <= Weight(pending) <= budget - rounds
        invariant |pending| + 2 * pages == seeds + rounds
        invariant attempts <= MAX_ATTEMPTS * rounds
        invariant Gathered(provider, logsAt, maxGetlogsResults, from, at, acc)
        decreases Weight(pending)
      {
        var outcome, tries;
        outcome, pending, acc, tries, at := ServeTop(provider, logsAt, from, at, to, pending, acc, attempts);
        rounds, attempts := rounds + 1, attempts + tries;
        if outcome.Failed? {
          return Err(outcome.error), rounds, attempts, pages, seeds;
        }
        if outcome.Kept? {
          pages := pages + 1;
        }
      }
      logs := Ok(acc);
    }

    /** Filtered records over `from..=to`, in ascending block order, each exactly once. */
    method FetchRecords<L(!new)>(
        provider: Provider<L>, ghost logsAt: nat -> seq<L>, mapLog: L -> Result<RawRecord, string>,
        from: nat, to: nat)
      returns (records: Result<seq<RawRecord>, string>, rounds: nat, attempts: nat)
      modifies this
      ensures CompletePages(provider, logsAt, maxGetlogsResults) && records.Ok? ==>
                var logs := RangeLogs(logsAt, from, to);
                && |records.value| == |logs|
                && forall i :: 0 <= i < |logs| ==> mapLog(logs[i]) == Ok(records.value[i])
      ensures CompletePages(provider, logsAt, maxGetlogsResults) && records.Err? && !GivesUp(provider, from, to) ==>
                var logs := RangeLogs(logsAt, from, to);
                exists i :: 0 <= i < |logs| && mapLog(logs[i]).Err?
      ensures from <= to ==> rounds <= 2 * (to - from + 1) - 1
      ensures attempts <= MAX_ATTEMPTS * rounds
    {
      var logs, r, a, pages, seeds := CollectPages(provider, logsAt, from, to);
      rounds, attempts := r, a;
      if logs.Err? {
        return Err(logs.error), rounds, attempts;
      }
      var out: seq<RawRecord> := [];
      for i := 0 to |logs.value|
        invariant |out| == i
        invariant forall k :: 0 <= k < i ==> mapLog(logs.value[k]) == Ok(out[k])
      {
        var mapped := mapLog(logs.value[i]);
        if mapped.Err? {
          return Err(mapped.error), rounds, attempts;
        }
        out := out + [mapped.value];
      }
      records := Ok(out);
    }
  }

  // ---------------------------------------------------------------- density under concurrency

  /** The shared estimate with the updates in flight: each has loaded the estimate and will
      store its own fold. `samples` are those seen so far; `stored` says whether any update has
      landed. */
  datatype Estimate = Estimate(value: nat, inFlight: map<nat, (nat, nat)>, samples: set<nat>, stored: bool)

  const UNKNOWN := Estimate(0, map[], {}, false)

  datatype EstimateStep = Load(task: nat, sample: nat) | Store(task: nat)

  predicate CanUpdate(e: Estimate, step: EstimateStep) {
    step.Store? ==> step.task in e.inFlight
  }

  function Updated(e: Estimate, step: EstimateStep): Estimate
    requires CanUpdate(e, step)
  {
    match step
    case Load(task, sample) =>
      e.(inFlight := e.inFlight[task := (e.value, sample)], samples := e.samples + {sample})
    case Store(task) =>
      var (loaded, sample) := e.inFlight[task];
      e.(value := Folded(loaded, sample), inFlight := e.inFlight - {task}, stored := true)
  }

  predicate Between(v: nat, samples: set<nat>) {
    (exists a :: a in samples && a <= v) && (exists b :: b in samples && v <= b)
  }

  ghost predicate Bounded(e: Estimate) {
    && (e.stored ==> Between(e.value, e.samples))
    && (!e.stored ==> e.value == 0)
    && (forall t :: t in e.inFlight ==>
          e.inFlight[t].1 in e.samples && (e.inFlight[t].0 == 0 || Between(e.inFlight[t].0, e.samples)))
  }

  ghost predicate Updates(e: Estimate, steps: seq<EstimateStep>)
    decreases |steps|
  {
    steps == [] || (CanUpdate(e, steps[0]) && Updates(Updated(e, steps[0]), steps[1..]))
  }

  ghost function AfterUpdates(e: Estimate, steps: seq<EstimateStep>): Estimate
    requires Updates(e, steps)
    decreases |steps|
  {
    if steps == [] then e else AfterUpdates(Updated(e, steps[0]), steps[1..])
  }

  /** Folding values of at most an eighth of the range does not wrap. */
  lemma FoldStaysBetween(loaded: nat, sample: nat, samples: set<nat>)
    requires sample in samples && (loaded == 0 || Between(loaded, samples))
    requires forall s :: s in samples ==> 8 * s <= MAX_U64
    ensures Between(Folded(loaded, sample), samples)
  {
    var v := Folded(loaded, sample);
    if loaded == 0 {
      assert sample in samples && sample <= v <= sample;
    } else {
      var a :| a in samples && a <= loaded;
      var b :| b in samples && loaded <= b;
      assert v == (loaded * 7 + sample) / 8;
      assert (if a <= sample then a else sample) in samples;
      assert (if sample <= b then b else sample) in samples;
    }
  }

  lemma UpdateStaysBounded(e: Estimate, step: EstimateStep)
    requires Bounded(e) && CanUpdate(e, step)
    requires forall s :: s in Updated(e, step).samples ==> 8 * s <= MAX_U64
    ensures Bounded(Updated(e, step))
  {
    if step.Store? {
      FoldStaysBetween(e.inFlight[step.task].0, e.inFlight[step.task].1, e.samples);
    }
  }

  ghost predicate SamplesUpTo(steps: seq<EstimateStep>, bound: nat) {
    forall i :: 0 <= i < |steps| && steps[i].Load? ==> steps[i].sample <= bound
  }

  lemma {:induction false} UpdatesStayBounded(e: Estimate, steps: seq<EstimateStep>, bound: nat)
    requires Bounded(e) && Updates(e, steps) && SamplesUpTo(steps, bound) && 8 * bound <= MAX_U64
    requires forall s :: s in e.samples ==> s <= bound
    ensures Bounded(AfterUpdates(e, steps))
    decreases |steps|
  {
    if steps != [] {
      UpdateStaysBounded(e, steps[0]);
      UpdatesStayBounded(Updated(e, steps[0]), steps[1..], bound);
    }
  }

  /** The estimate is unknown until the first store and between the samples seen ever after. */
  ghost predicate WithinSamples(e: Estimate) {
    if e.stored then Between(e.value, e.samples) else e.value == 0
  }

  /** Two updates, one after the other, with the same sample. */
  lemma SameSampleTwice(sample: nat)
    requires sample > 0
    ensures var steps := [Load(0, sample), Store(0), Load(0, sample), Store(0)];
            Updates(UNKNOWN, steps) && AfterUpdates(UNKNOWN, steps).stored &&
            AfterUpdates(UNKNOWN, steps).samples == {sample} && AfterUpdates(UNKNOWN, steps).value == Folded(sample, sample)
  {
    var steps := [Load(0, sample), Store(0), Load(0, sample), Store(0)];
    var e1 := Updated(UNKNOWN, steps[0]);
    var e2 := Updated(e1, steps[1]);
    var e3 := Updated(e2, steps[2]);
    var e4 := Updated(e3, steps[3]);
    assert steps[1..] == [Store(0), Load(0, sample), Store(0)];
    assert steps[1..][1..] == [Load(0, sample), Store(0)];
    assert steps[1..][1..][1..] == [Store(0)];
    assert steps[1..][1..][1..][1..] == [];
    assert AfterUpdates(e4, []) == e4;
    assert AfterUpdates(e3, [Store(0)]) == e4;
    assert AfterUpdates(e2, [Load(0, sample), Store(0)]) == e4;
  }

  /** Under every interleaving of loads and stores of samples up to a bound the estimate stays within
      the samples seen, exactly when the bound is at most an eighth of the 64-bit range: beyond it
      the weighted sum wraps. */
  lemma EstimateWithinSamples(bound: nat)
    requires bound <= MAX_U64
    ensures (forall steps :: Updates(UNKNOWN, steps) && SamplesUpTo(steps, bound) ==> WithinSamples(AfterUpdates(UNKNOWN, steps))) <==>
            8 * bound <= MAX_U64
  {
    if 8 * bound <= MAX_U64 {
      forall steps | Updates(UNKNOWN, steps) && SamplesUpTo(steps, bound)
        ensures WithinSamples(AfterUpdates(UNKNOWN, steps))
      {
        UpdatesStayBounded(UNKNOWN, steps, bound);
      }
    } else {
      var steps := [Load(0, bound), Store(0), Load(0, bound), Store(0)];
      SameSampleTwice(bound);
      assert SamplesUpTo(steps, bound);
      assert Folded(bound, bound) < bound;
      assert !WithinSamples(AfterUpdates(UNKNOWN, steps));
    }
  }

  /** A seeded span no denser than a known estimate is never split by the page-length test. */
  lemma SeedStaysUnderCap(density: nat, cap: nat, maxBlocks: nat, span: Span, logs: nat)
    requires density > 0 && span.lo <= span.hi
    requires span.hi - span.lo + 1 <= SpanFor(density, cap, maxBlocks)
    requires logs * 1000 <= density * (span.hi - span.lo + 1)
    ensures Accepts(cap, span, logs)
  {
    if cap > 0 && span.lo < span.hi {
      var aim := SaturatingMul(cap, 800) / density;
      var blocks := span.hi - span.lo + 1;
      assert blocks <= aim;
      MulMonotone(blocks, aim, density);
      assert aim * density <= SaturatingMul(cap, 800) <= cap * 800;
    }
  }
}
