/** Range planning and the contiguous-prefix cursor tracker of the ingest pipeline. */
module Plan {
  import opened Model

  /** An inclusive block range. */
  datatype Span = Span(lo: nat, hi: nat)

  function Min(a: int, b: int): int {
    if a <= b then a else b
  }

  /** Upper end of one fetch iteration; a no-fetch iteration jumps to the whole safe tip. */
  function FetchTarget(safe: nat, next: nat, step: nat, concurrency: nat, mustFetch: bool): (target: nat)
    requires next >= 1
    ensures target <= safe
  {
    if mustFetch then Min(safe, next + step * concurrency - 1) else safe
  }

  /** `spans` cut `from..=to` into consecutive non-empty pieces; no pieces when it is empty. */
  predicate Tiles(spans: seq<Span>, from: nat, to: int) {
    if spans == [] then from == to + 1
    else
      && spans[0].lo == from <= spans[0].hi <= to
      && Tiles(spans[1..], spans[0].hi + 1, to)
  }

  function PlannedSpans(next: nat, target: int, step: nat): (spans: seq<Span>)
    requires step >= 1
    decreases target - next
  {
    if next > target then []
    else
      var e := Min(next + step - 1, target);
      [Span(next, e)] + PlannedSpans(e + 1, target, step)
  }

  /** The planned ranges tile the window, each at most `step` long, and any `k` steps that
      reach the end of the window are enough ranges. */
  lemma {:induction false} PlannedSpansTile(next: nat, target: int, step: nat, k: nat)
    requires step >= 1 && target < next + step * k
    ensures next <= target + 1 ==> Tiles(PlannedSpans(next, target, step), next, target)
    ensures |PlannedSpans(next, target, step)| <= k
    ensures forall s :: s in PlannedSpans(next, target, step) ==> s.hi - s.lo < step
    ensures forall s :: s in PlannedSpans(next, target, step) ==> s.hi == target || s.hi - s.lo == step - 1
    decreases k
  {
    if next <= target {
      var e := Min(next + step - 1, target);
      if k == 0 {
        assert false;
      }
      assert step * k == step + step * (k - 1);
      if e == target {
        assert PlannedSpans(e + 1, target, step) == [];
      } else {
        PlannedSpansTile(e + 1, target, step, k - 1);
      }
      var tail := PlannedSpans(e + 1, target, step);
      assert PlannedSpans(next, target, step)[1..] == tail;
    }
  }

  /** A window is as wide as `concurrency` steps unless the safe tip cuts it short. It is tiled by at most
      `concurrency` ranges, each `step` long but for one that ends the window. */
  lemma WindowFitsPipeline(safe: nat, next: nat, step: nat, concurrency: nat)
    requires 1 <= next <= safe && step >= 1 && concurrency >= 1
    ensures var target := FetchTarget(safe, next, step, concurrency, true);
            var spans := PlannedSpans(next, target, step);
            && next <= target <= safe
            && (target == safe || target == next + step * concurrency - 1)
            && Tiles(spans, next, target)
            && 1 <= |spans| <= concurrency
            && forall s :: s in spans ==> s.hi - s.lo < step && (s.hi == target || s.hi - s.lo == step - 1)
  {
    assert step * concurrency >= 1;
    PlannedSpansTile(next, FetchTarget(safe, next, step, concurrency, true), step, concurrency);
  }

  method PlanRanges(next: nat, target: nat, step: nat) returns (ranges: seq<Span>)
    requires step >= 1
    ensures ranges == PlannedSpans(next, target, step)
  {
    ranges := [];
    var s := next;
    while s <= target
      invariant ranges + PlannedSpans(s, target, step) == PlannedSpans(next, target, step)
      decreases target - s
    {
      var e := Min(s + step - 1, target);
      ranges := ranges + [Span(s, e)];
      s := e + 1;
    }
  }

  // ---------------------------------------------------------------- prefix tracker

  /** Value of the tracker: the next start that would extend the prefix, the ranges waiting on
      an earlier gap, the highest matched block of the prefix, and the prefix's end. */
  datatype Tracker = Tracker(
    frontier: nat, waiting: map<nat, (nat, Option<Checkpoint>)>, best: Option<Checkpoint>,
    advancedTo: Option<nat>)

  function NewTracker(start: nat): Tracker {
    Tracker(start, map[], None, None)
  }

  function BestHash(t: Tracker): Hash {
    if t.best.Some? then t.best.value.hash else []
  }

  function Higher(best: Option<Checkpoint>, last: Option<Checkpoint>): Option<Checkpoint> {
    if last.Some? && (best.None? || last.value.height >= best.value.height) then last else best
  }

  function Advance(t: Tracker): Tracker
    requires t.frontier in t.waiting
  {
    var (end, last) := t.waiting[t.frontier];
    Tracker(end + 1, t.waiting - {t.frontier}, Higher(t.best, last), Some(end))
  }

  function Drain(t: Tracker): Tracker
    decreases |t.waiting|
  {
    if t.frontier in t.waiting then
      assert t.waiting.Keys == (t.waiting - {t.frontier}).Keys + {t.frontier};
      Drain(Advance(t))
    else t
  }

  function Recorded(t: Tracker, from: nat, to: nat, last: Option<Checkpoint>): Tracker {
    Drain(t.(waiting := t.waiting[from := (to, last)]))
  }

  class PrefixTracker {
    var frontier: nat
    var waiting: map<nat, (nat, Option<Checkpoint>)>
    var best: Option<Checkpoint>
    var advancedTo: Option<nat>

    ghost function State(): Tracker
      reads this
    {
      Tracker(frontier, waiting, best, advancedTo)
    }

    constructor (start: nat)
      ensures State() == NewTracker(start)
    {
      frontier, waiting, best, advancedTo := start, map[], None, None;
    }

    /** Moves the prefix over the waiting range that starts at the frontier. */
    method TakeFrontier()
      requires frontier in waiting
      modifies this
      ensures State() == Advance(old(State()))
      ensures |waiting| < |old(waiting)|
    {
      var (end, last) := waiting[frontier];
      assert waiting.Keys == (waiting - {frontier}).Keys + {frontier};
      waiting := waiting - {frontier};
      if last.Some? && (best.None? || last.value.height >= best.value.height) {
        best := last;
      }
      frontier := end + 1;
      advancedTo := Some(end);
    }

    /** Records a committed range; returns the checkpoint to write when the prefix grew. */
    method Record(from: nat, to: nat, last: Option<Checkpoint>) returns (checkpoint: Option<Checkpoint>)
      modifies this
      ensures State() == Recorded(old(State()), from, to, last)
      ensures checkpoint.Some? <==> old(frontier) == from || old(frontier in waiting)
      ensures checkpoint.Some? ==>
                advancedTo.Some? && checkpoint == Some(Checkpoint(advancedTo.value, BestHash(State())))
      ensures checkpoint.None? ==> frontier == old(frontier) && best == old(best) && advancedTo == old(advancedTo)
    {
      waiting := waiting[from := (to, last)];
      ghost var entered := State();
      var moved := false;
      while frontier in waiting
        invariant Drain(State()) == Drain(entered)
        invariant !moved ==> State() == entered
        invariant moved ==> entered.frontier in entered.waiting && advancedTo.Some?
        decreases |waiting|
      {
        TakeFrontier();
        moved := true;
      }
      checkpoint := None;
      if moved {
        var hash := if best.Some? then best.value.hash else [];
        checkpoint := Some(Checkpoint(advancedTo.value, hash));
      }
    }
  }

  // ---------------------------------------------------------------- order independence

  /** A planned range as committed: its ends and the highest block it matched, if any. */
  datatype Tile = Tile(lo: nat, hi: nat, last: Option<Checkpoint>)

  /** Consecutive non-empty ranges from `start`, each naming only a block of its own. */
  ghost predicate Tiling(tiles: seq<Tile>, start: nat) {
    && (tiles != [] ==> tiles[0].lo == start)
    && (forall i :: 0 <= i < |tiles| ==> tiles[i].lo <= tiles[i].hi)
    && (forall i :: 0 <= i < |tiles| ==> tiles[i].last.Some? ==>
          tiles[i].lo <= tiles[i].last.value.height <= tiles[i].hi)
    && (forall i, j :: 0 <= i && j == i + 1 && j < |tiles| ==> tiles[j].lo == tiles[i].hi + 1)
  }

  lemma {:induction false} TilesAscend(tiles: seq<Tile>, start: nat, i: nat, j: nat)
    requires Tiling(tiles, start) && i < j < |tiles|
    ensures tiles[i].hi < tiles[j].lo
    decreases j - i
  {
    var k := j - 1;
    assert tiles[j].lo == tiles[k].hi + 1;
    if i < k {
      TilesAscend(tiles, start, i, k);
    }
  }

  /** Where the prefix of the first `p` tiles ends, plus one. */
  function Front(tiles: seq<Tile>, start: nat, p: nat): nat
    requires p <= |tiles|
  {
    if p == 0 then start else tiles[p - 1].hi + 1
  }

  lemma FrontIsStart(tiles: seq<Tile>, start: nat, p: nat, i: nat)
    requires Tiling(tiles, start) && p <= |tiles| && i < |tiles|
    ensures tiles[i].lo == Front(tiles, start, p) <==> i == p
  {
    if 0 < p < |tiles| {
      var q := p - 1;
      assert tiles[p].lo == tiles[q].hi + 1;
    }
    if i < p {
      if i < p - 1 {
        TilesAscend(tiles, start, i, p - 1);
      }
    } else if p < i {
      TilesAscend(tiles, start, p, i);
    }
  }

  /** The matched block of the last of the first `p` tiles that matched anything. */
  function BestOf(tiles: seq<Tile>, p: nat): Option<Checkpoint>
    requires p <= |tiles|
  {
    if p == 0 then None
    else if tiles[p - 1].last.Some? then tiles[p - 1].last
    else BestOf(tiles, p - 1)
  }

  /** `BestOf` is the highest matched block of the prefix, and never above the prefix. */
  lemma {:induction false} BestOfIsHighest(tiles: seq<Tile>, start: nat, p: nat)
    requires Tiling(tiles, start) && p <= |tiles|
    ensures BestOf(tiles, p).Some? ==> p > 0 && start <= BestOf(tiles, p).value.height <= tiles[p - 1].hi
    ensures forall i :: 0 <= i < p && tiles[i].last.Some? ==>
              BestOf(tiles, p).Some? && tiles[i].last.value.height <= BestOf(tiles, p).value.height
    ensures BestOf(tiles, p).Some? ==> exists i :: 0 <= i < p && tiles[i].last == BestOf(tiles, p)
  {
    if p > 0 {
      var q := p - 1;
      BestOfIsHighest(tiles, start, q);
      if q > 0 {
        TilesAscend(tiles, start, 0, q);
        TilesAscend(tiles, start, q - 1, q);
      }
      assert BestOf(tiles, p).Some? && tiles[q].last.Some? ==> tiles[q].last == BestOf(tiles, p);
    }
  }

  /** Length of the longest prefix of tiles all of whose indices have arrived, from `i` on. */
  function PrefixFrom(arrived: set<nat>, n: nat, i: nat): (p: nat)
    requires i <= n
    ensures i <= p <= n
    ensures forall j :: i <= j < p ==> j in arrived
    ensures p < n ==> p !in arrived
    decreases n - i
  {
    if i < n && i in arrived then PrefixFrom(arrived, n, i + 1) else i
  }

  /** The tracker has moved over exactly the first `p` tiles and holds the other arrivals. */
  ghost predicate MovedOver(t: Tracker, tiles: seq<Tile>, start: nat, arrived: set<nat>, p: nat) {
    && p <= |tiles|
    && t.frontier == Front(tiles, start, p)
    && t.best == BestOf(tiles, p)
    && t.advancedTo == (if p == 0 then None else Some(tiles[p - 1].hi))
    && (forall i :: i in arrived && p <= i < |tiles| ==>
          tiles[i].lo in t.waiting && t.waiting[tiles[i].lo] == (tiles[i].hi, tiles[i].last))
    && (forall k :: k in t.waiting ==> exists i :: i in arrived && p <= i < |tiles| && tiles[i].lo == k)
  }

  /** What a tracker must look like once exactly the tiles `arrived` have been recorded. */
  ghost predicate Reflects(t: Tracker, tiles: seq<Tile>, start: nat, arrived: set<nat>) {
    MovedOver(t, tiles, start, arrived, PrefixFrom(arrived, |tiles|, 0))
  }

  lemma {:induction false} DrainReachesPrefix(t: Tracker, tiles: seq<Tile>, start: nat, arrived: set<nat>, p: nat)
    requires Tiling(tiles, start) && MovedOver(t, tiles, start, arrived, p)
    ensures MovedOver(Drain(t), tiles, start, arrived, PrefixFrom(arrived, |tiles|, p))
    decreases |tiles| - p
  {
    forall i | 0 <= i < |tiles|
      ensures tiles[i].lo == t.frontier <==> i == p
    {
      FrontIsStart(tiles, start, p, i);
    }
    if p < |tiles| && p in arrived {
      AdvanceOverTile(t, tiles, start, arrived, p);
      DrainReachesPrefix(Advance(t), tiles, start, arrived, p + 1);
    } else {
      assert t.frontier !in t.waiting;
    }
  }

  lemma AdvanceOverTile(t: Tracker, tiles: seq<Tile>, start: nat, arrived: set<nat>, p: nat)
    requires Tiling(tiles, start) && MovedOver(t, tiles, start, arrived, p)
    requires p < |tiles| && p in arrived
    ensures t.frontier in t.waiting
    ensures MovedOver(Advance(t), tiles, start, arrived, p + 1)
  {
    FrontIsStart(tiles, start, p, p);
    BestOfIsHighest(tiles, start, p);
    if p > 0 {
      TilesAscend(tiles, start, p - 1, p);
    }
    var u := Advance(t);
    forall i | i in arrived && p + 1 <= i < |tiles|
      ensures tiles[i].lo in u.waiting && u.waiting[tiles[i].lo] == (tiles[i].hi, tiles[i].last)
    {
      FrontIsStart(tiles, start, p, i);
    }
    forall k | k in u.waiting
      ensures exists i :: i in arrived && p + 1 <= i < |tiles| && tiles[i].lo == k
    {
      var i :| i in arrived && p <= i < |tiles| && tiles[i].lo == k;
      FrontIsStart(tiles, start, p, i);
    }
  }

  lemma {:induction false} PrefixStable(arrived: set<nat>, more: nat, n: nat, i: nat)
    requires i <= n && more < n && more !in arrived
    ensures PrefixFrom(arrived, n, i) <= more || i > more
    ensures PrefixFrom(arrived + {more}, n, i) ==
            PrefixFrom(arrived + {more}, n, PrefixFrom(arrived, n, i))
    decreases n - i
  {
  }

  lemma OtherStart(tiles: seq<Tile>, start: nat, i: nat, j: nat)
    requires Tiling(tiles, start) && i < |tiles| && j < |tiles| && i != j
    ensures tiles[i].lo != tiles[j].lo
  {
    if i < j {
      TilesAscend(tiles, start, i, j);
    } else {
      TilesAscend(tiles, start, j, i);
    }
  }

  lemma FrontierIsFree(t: Tracker, tiles: seq<Tile>, start: nat, arrived: set<nat>, p: nat)
    requires Tiling(tiles, start) && MovedOver(t, tiles, start, arrived, p) && (p < |tiles| ==> p !in arrived)
    ensures t.frontier !in t.waiting
  {
    if t.frontier in t.waiting {
      var i :| i in arrived && p <= i < |tiles| && tiles[i].lo == t.frontier;
      FrontIsStart(tiles, start, p, i);
      assert false;
    }
  }

  /** A tile that arrives above the prefix waits. */
  lemma TileWaits(t: Tracker, tiles: seq<Tile>, start: nat, arrived: set<nat>, p: nat, i: nat)
    requires Tiling(tiles, start) && MovedOver(t, tiles, start, arrived, p) && p <= i < |tiles| && i !in arrived
    ensures MovedOver(t.(waiting := t.waiting[tiles[i].lo := (tiles[i].hi, tiles[i].last)]), tiles, start, arrived + {i}, p)
  {
    var u := t.(waiting := t.waiting[tiles[i].lo := (tiles[i].hi, tiles[i].last)]);
    forall j | j in arrived + {i} && p <= j < |tiles|
      ensures tiles[j].lo in u.waiting && u.waiting[tiles[j].lo] == (tiles[j].hi, tiles[j].last)
    {
      if j != i {
        OtherStart(tiles, start, i, j);
      }
    }
    forall k | k in u.waiting
      ensures exists j :: j in arrived + {i} && p <= j < |tiles| && tiles[j].lo == k
    {
      if k == tiles[i].lo {
        assert i in arrived + {i};
      } else {
        var j :| j in arrived && p <= j < |tiles| && tiles[j].lo == k;
        assert j in arrived + {i};
      }
    }
  }

  lemma PrefixGrows(arrived: set<nat>, i: nat, n: nat)
    requires i < n && i !in arrived
    ensures var p := PrefixFrom(arrived, n, 0);
            p <= i && PrefixFrom(arrived + {i}, n, 0) == PrefixFrom(arrived + {i}, n, p) &&
            (i == p <==> p < PrefixFrom(arrived + {i}, n, 0))
  {
    PrefixStable(arrived, i, n, 0);
  }

  /** Recording one more tile takes the tracker of a subset to the tracker of the larger subset,
      and yields a checkpoint exactly when the gap-free prefix grew. */
  lemma RecordKeepsReflection(t: Tracker, tiles: seq<Tile>, start: nat, arrived: set<nat>, i: nat)
    requires Tiling(tiles, start) && Reflects(t, tiles, start, arrived)
    requires i < |tiles| && i !in arrived
    ensures Reflects(Recorded(t, tiles[i].lo, tiles[i].hi, tiles[i].last), tiles, start, arrived + {i})
    ensures t.frontier !in t.waiting
    ensures t.frontier == tiles[i].lo <==>
            PrefixFrom(arrived, |tiles|, 0) < PrefixFrom(arrived + {i}, |tiles|, 0)
  {
    var p := PrefixFrom(arrived, |tiles|, 0);
    PrefixGrows(arrived, i, |tiles|);
    FrontIsStart(tiles, start, p, i);
    FrontierIsFree(t, tiles, start, arrived, p);
    TileWaits(t, tiles, start, arrived, p, i);
    DrainReachesPrefix(t.(waiting := t.waiting[tiles[i].lo := (tiles[i].hi, tiles[i].last)]), tiles, start, arrived + {i}, p);
  }

  /** Arrival order of some of the tiles: indices, none twice. */
  predicate Arrivals(order: seq<nat>, n: nat) {
    && (forall k :: 0 <= k < |order| ==> order[k] < n)
    && (forall j, k :: 0 <= j < k < |order| ==> order[j] != order[k])
  }

  ghost function Arrived(order: seq<nat>): set<nat> {
    set i | i in order
  }

  function RecordedAll(tiles: seq<Tile>, start: nat, order: seq<nat>): Tracker
    requires forall k :: 0 <= k < |order| ==> order[k] < |tiles|
  {
    if order == [] then NewTracker(start)
    else
      var last := order[|order| - 1];
      Recorded(RecordedAll(tiles, start, order[..|order| - 1]), tiles[last].lo, tiles[last].hi, tiles[last].last)
  }

  lemma RecordedOneMore(tiles: seq<Tile>, start: nat, order: seq<nat>, i: nat)
    requires (forall k :: 0 <= k < |order| ==> order[k] < |tiles|) && i < |tiles|
    requires forall k :: 0 <= k < |order + [i]| ==> (order + [i])[k] < |tiles|
    ensures RecordedAll(tiles, start, order + [i]) ==
            Recorded(RecordedAll(tiles, start, order), tiles[i].lo, tiles[i].hi, tiles[i].last)
  {
    assert (order + [i])[..|order + [i]| - 1] == order;
  }

  lemma ArrivedFront(order: seq<nat>, n: nat)
    requires order != [] && Arrivals(order, n)
    ensures var front, last := order[..|order| - 1], order[|order| - 1];
            Arrivals(front, n) && last !in Arrived(front) && Arrived(order) == Arrived(front) + {last}
  {
  }

  lemma {:induction false} RecordedAllReflects(tiles: seq<Tile>, start: nat, order: seq<nat>)
    requires Tiling(tiles, start) && Arrivals(order, |tiles|)
    ensures Reflects(RecordedAll(tiles, start, order), tiles, start, Arrived(order))
  {
    if order == [] {
    } else {
      var front, last := order[..|order| - 1], order[|order| - 1];
      ArrivedFront(order, |tiles|);
      RecordedAllReflects(tiles, start, front);
      RecordKeepsReflection(RecordedAll(tiles, start, front), tiles, start, Arrived(front), last);
    }
  }

  lemma ReflectionIsUnique(t: Tracker, u: Tracker, tiles: seq<Tile>, start: nat, arrived: set<nat>)
    requires Reflects(t, tiles, start, arrived) && Reflects(u, tiles, start, arrived)
    ensures t == u
  {
  }

  lemma ReflectionReads(t: Tracker, tiles: seq<Tile>, start: nat, arrived: set<nat>)
    requires Tiling(tiles, start) && Reflects(t, tiles, start, arrived)
    ensures var p := PrefixFrom(arrived, |tiles|, 0);
            && t.advancedTo == (if p == 0 then None else Some(tiles[p - 1].hi))
            && (t.best.Some? ==> t.advancedTo.Some? && start <= t.best.value.height <= t.advancedTo.value)
            && (forall i :: 0 <= i < p && tiles[i].last.Some? ==>
                  t.best.Some? && tiles[i].last.value.height <= t.best.value.height)
  {
    BestOfIsHighest(tiles, start, PrefixFrom(arrived, |tiles|, 0));
  }

  /** Whatever the order ranges commit in, the tracker depends only on which ones have: its end
      is the end of the longest gap-free prefix, and its hash is the highest matched block's
      inside that prefix. */
  lemma OrderIndependent(tiles: seq<Tile>, start: nat, order: seq<nat>, other: seq<nat>)
    requires Tiling(tiles, start) && Arrivals(order, |tiles|) && Arrivals(other, |tiles|)
    requires Arrived(order) == Arrived(other)
    ensures RecordedAll(tiles, start, order) == RecordedAll(tiles, start, other)
    ensures var t := RecordedAll(tiles, start, order);
            var p := PrefixFrom(Arrived(order), |tiles|, 0);
            && t.advancedTo == (if p == 0 then None else Some(tiles[p - 1].hi))
            && (t.best.Some? ==> t.advancedTo.Some? && start <= t.best.value.height <= t.advancedTo.value)
            && (forall i :: 0 <= i < p && tiles[i].last.Some? ==>
                  t.best.Some? && tiles[i].last.value.height <= t.best.value.height)
  {
    RecordedAllReflects(tiles, start, order);
    RecordedAllReflects(tiles, start, other);
    ReflectionIsUnique(RecordedAll(tiles, start, order), RecordedAll(tiles, start, other), tiles, start, Arrived(order));
    ReflectionReads(RecordedAll(tiles, start, order), tiles, start, Arrived(order));
  }
}
