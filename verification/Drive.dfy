/** The fetch→write pipeline: ranges of a window are fetched concurrently, committed in the
    order they arrive, and the cursor advances over the gap-free prefix. A drive may stop at any
    point, also between a commit and the cursor write that follows it. */
module Drive {
  import opened Model
  import opened Plan
  import opened Fetch
  import opened Chain

  // ---------------------------------------------------------------- the window as tiles

  /** The highest block among the fetched metas; the last one of equal height. */
  function HighestMeta(metas: seq<BlockMeta>): Option<Checkpoint> {
    if metas == [] then None
    else
      var m := metas[|metas| - 1];
      Higher(HighestMeta(metas[..|metas| - 1]), Some(Checkpoint(m.height, m.hash)))
  }

  lemma {:induction false} HighestMetaIsOne(metas: seq<BlockMeta>)
    ensures HighestMeta(metas).Some? ==>
              exists m :: m in metas && HighestMeta(metas).value == Checkpoint(m.height, m.hash)
  {
    if metas != [] {
      HighestMetaIsOne(metas[..|metas| - 1]);
      assert metas[|metas| - 1] in metas;
    }
  }

  function TileOf(w: World, c: nat, span: Span): Tile {
    Tile(span.lo, span.hi, HighestMeta(RangeLogs(MetasAt(w, c), span.lo, span.hi)))
  }

  function TilesOf(w: World, c: nat, spans: seq<Span>): seq<Tile> {
    seq(|spans|, i requires 0 <= i < |spans| => TileOf(w, c, spans[i]))
  }

  /** The tiles of one window. */
  function Window(w: World, c: nat, next: nat, target: nat, step: nat): seq<Tile>
    requires step >= 1
  {
    TilesOf(w, c, PlannedSpans(next, target, step))
  }

  lemma TileInside(w: World, c: nat, span: Span)
    requires WellFormed(w)
    ensures TileOf(w, c, span).last.Some? ==> span.lo <= TileOf(w, c, span).last.value.height <= span.hi
  {
    var metas := RangeLogs(MetasAt(w, c), span.lo, span.hi);
    HighestMetaIsOne(metas);
    if HighestMeta(metas).Some? {
      var m :| m in metas && HighestMeta(metas).value == Checkpoint(m.height, m.hash);
      MetaIsABlock(w, c, span.lo, span.hi, m);
    }
  }

  lemma {:induction false} SpansTileByIndex(spans: seq<Span>, from: nat, to: int)
    requires Tiles(spans, from, to) && spans != []
    ensures spans[0].lo == from && spans[|spans| - 1].hi == to
    ensures forall i :: 0 <= i < |spans| ==> spans[i].lo <= spans[i].hi
    ensures forall i, j :: 0 <= i && j == i + 1 && j < |spans| ==> spans[j].lo == spans[i].hi + 1
  {
    if |spans| > 1 {
      var rest := spans[1..];
      SpansTileByIndex(rest, spans[0].hi + 1, to);
      forall i, j | 0 <= i && j == i + 1 && j < |spans|
        ensures spans[j].lo == spans[i].hi + 1
      {
        if i > 0 {
          assert rest[j - 1].lo == rest[i - 1].hi + 1;
        }
      }
      forall i | 0 <= i < |spans|
        ensures spans[i].lo <= spans[i].hi
      {
        if i > 0 {
          assert rest[i - 1].lo <= rest[i - 1].hi;
        }
      }
    }
  }

  /** A window's tiles tile it, up to its target. */
  lemma WindowTiles(w: World, c: nat, next: nat, target: nat, step: nat)
    requires WellFormed(w) && step >= 1
    ensures Tiling(Window(w, c, next, target, step), next)
    ensures next > target ==> Window(w, c, next, target, step) == []
    ensures next <= target ==> var tiles := Window(w, c, next, target, step);
              tiles != [] && tiles[|tiles| - 1].hi == target
  {
    var spans := PlannedSpans(next, target, step);
    var tiles := Window(w, c, next, target, step);
    if next <= target {
      SeedsTile(next, target, step);
      SpansTileByIndex(spans, next, target);
      forall i | 0 <= i < |tiles|
        ensures tiles[i].lo == spans[i].lo && tiles[i].hi == spans[i].hi
        ensures tiles[i].last.Some? ==> tiles[i].lo <= tiles[i].last.value.height <= tiles[i].hi
      {
        TileInside(w, c, spans[i]);
      }
    }
  }

  lemma {:induction false} FindTile(tiles: seq<Tile>, start: nat, p: nat, h: nat) returns (j: nat)
    requires Tiling(tiles, start) && p <= |tiles| && start <= h < Front(tiles, start, p)
    ensures j < p && tiles[j].lo <= h <= tiles[j].hi
  {
    j := p - 1;
    if h < tiles[j].lo {
      if j > 0 {
        var i := j - 1;
        assert tiles[j].lo == tiles[i].hi + 1;
      }
      j := FindTile(tiles, start, j, h);
    }
  }

  lemma TilesStayInside(tiles: seq<Tile>, start: nat, j: nat)
    requires Tiling(tiles, start) && j < |tiles|
    ensures start <= tiles[j].lo && tiles[j].hi <= tiles[|tiles| - 1].hi
  {
    if j > 0 {
      TilesAscend(tiles, start, 0, j);
    }
    if j < |tiles| - 1 {
      TilesAscend(tiles, start, j, |tiles| - 1);
    }
  }

  // ---------------------------------------------------------------- one drive

  /** The database and the consumer's tracker part-way through a drive. */
  datatype Driving = Driving(db: Db, tracker: Tracker)

  function CommitTile(byTx: Schema, w: World, c: nat, db: Db, tile: Tile): Db {
    Committed(byTx, db, c, Fetched(w, c, tile.lo, tile.hi))
  }

  /** Commit a range, record it, and advance the cursor when the prefix grew. */
  function Arrive(byTx: Schema, w: World, c: nat, d: Driving, tile: Tile): Driving {
    var db := CommitTile(byTx, w, c, d.db, tile);
    var t := Recorded(d.tracker, tile.lo, tile.hi, tile.last);
    var moved := d.tracker.frontier == tile.lo || d.tracker.frontier in d.tracker.waiting;
    Driving(if moved && t.advancedTo.Some? then Advanced(db, c, Checkpoint(t.advancedTo.value, BestHash(t))) else db, t)
  }

  predicate InWindow(order: seq<nat>, tiles: seq<Tile>) {
    forall k :: 0 <= k < |order| ==> order[k] < |tiles|
  }

  /** The state after the ranges `order` have arrived, one after the other. */
  function Driven(byTx: Schema, w: World, c: nat, db: Db, tiles: seq<Tile>, start: nat, order: seq<nat>): Driving
    requires InWindow(order, tiles)
  {
    if order == [] then Driving(db, NewTracker(start))
    else
      Arrive(byTx, w, c, Driven(byTx, w, c, db, tiles, start, order[..|order| - 1]), tiles[order[|order| - 1]])
  }

  lemma {:induction false} DrivenTracks(byTx: Schema, w: World, c: nat, db: Db, tiles: seq<Tile>, start: nat, order: seq<nat>)
    requires InWindow(order, tiles)
    ensures Driven(byTx, w, c, db, tiles, start, order).tracker == RecordedAll(tiles, start, order)
  {
    if order != [] {
      DrivenTracks(byTx, w, c, db, tiles, start, order[..|order| - 1]);
    }
  }

  /** What a drive has done to the rows: `db` has grown to `db'` by rows of chain `c` between
      `lo` and `hi` only. */
  ghost predicate GrewWithin(db: Db, db': Db, c: nat, lo: nat, hi: int) {
    && Grows(db, db')
    && (forall k :: k in db'.raw && k !in db.raw ==> k.chain == c && lo <= k.height <= hi)
    && (forall k :: k in db'.blocks && k !in db.blocks ==> k.chain == c && lo <= k.height <= hi)
    && (forall k :: k in db'.typed && k !in db.typed ==>
          IsAux(db'.typed[k].table) && db'.typed[k].chain == c && lo <= db'.typed[k].height <= hi)
  }

  lemma CommitGrowsWithin(byTx: Schema, w: World, c: nat, db: Db, lo: nat, hi: nat)
    requires WellFormed(w) && Canonical(byTx, db, w)
    ensures GrewWithin(db, Committed(byTx, db, c, Fetched(w, c, lo, hi)), c, lo, hi)
  {
    CommitCanonical(byTx, db, w, c, lo, hi);
    CommitTables(byTx, db, w, c, lo, hi);
    RawCommitted(db.raw, w, c, lo, hi);
    BlocksCommitted(db.blocks, w, c, lo, hi);
    AuxCommitted(byTx, db.typed, w, c, lo, hi);
  }

  lemma GrowthJoins(a: Db, b: Db, d: Db, c: nat, lo: nat, hi: int, lo': nat, hi': int)
    requires GrewWithin(a, b, c, lo, hi) && GrewWithin(b, d, c, lo', hi')
    requires lo <= lo' && hi' <= hi
    ensures GrewWithin(a, d, c, lo, hi)
  {
  }

  /** The heights `lo..=hi` of chain `c` are all committed. */
  ghost predicate AllCovered(byTx: Schema, db: Db, w: World, c: nat, lo: nat, hi: int) {
    forall h: nat :: lo <= h <= hi ==> Covers(byTx, db, w, c, h)
  }

  lemma CoverageGrows(byTx: Schema, db: Db, db': Db, w: World, c: nat, lo: nat, hi: int)
    requires WellFormed(w) && AllCovered(byTx, db, w, c, lo, hi) && Canonical(byTx, db', w) && Grows(db, db')
    ensures AllCovered(byTx, db', w, c, lo, hi)
  {
    forall h: nat | lo <= h <= hi
      ensures Covers(byTx, db', w, c, h)
    {
      CoverageSurvives(byTx, db, db', w, c, h);
    }
  }

  /** Rows after the arrivals `order`: canonical, grown only inside the window, every arrived
      range covered. */
  ghost predicate RowsSound(
    byTx: Schema, w: World, c: nat, db: Db, tiles: seq<Tile>, start: nat, order: seq<nat>, db': Db)
    requires InWindow(order, tiles)
  {
    && Canonical(byTx, db', w)
    && (forall j :: j in order ==> AllCovered(byTx, db', w, c, tiles[j].lo, tiles[j].hi))
    && GrewWithin(db, db', c, start, if tiles == [] then start - 1 else tiles[|tiles| - 1].hi)
  }

  /** The cursor is untouched, or at the end of the gap-free prefix of the arrivals. */
  ghost predicate CursorSound(c: nat, db: Db, tiles: seq<Tile>, start: nat, order: seq<nat>, d: Driving)
    requires InWindow(order, tiles)
  {
    && d.tracker == RecordedAll(tiles, start, order)
    && d.db.cursors == (match d.tracker.advancedTo
                        case None => db.cursors
                        case Some(a) => db.cursors[c := Checkpoint(a, BestHash(d.tracker))])
  }

  ghost predicate Sound(
    byTx: Schema, w: World, c: nat, db: Db, tiles: seq<Tile>, start: nat, order: seq<nat>, d: Driving)
    requires InWindow(order, tiles)
  {
    RowsSound(byTx, w, c, db, tiles, start, order, d.db) && CursorSound(c, db, tiles, start, order, d)
  }

  lemma CommitTileSound(
    byTx: Schema, w: World, c: nat, db: Db, tiles: seq<Tile>, start: nat, order: seq<nat>, mid: Db, i: nat)
    requires WellFormed(w) && SchemaOk(byTx) && Tiling(tiles, start) && InWindow(order, tiles) && i < |tiles|
    requires RowsSound(byTx, w, c, db, tiles, start, order, mid)
    ensures InWindow(order + [i], tiles)
    ensures RowsSound(byTx, w, c, db, tiles, start, order + [i], CommitTile(byTx, w, c, mid, tiles[i]))
  {
    var lo, hi := tiles[i].lo, tiles[i].hi;
    var db' := CommitTile(byTx, w, c, mid, tiles[i]);
    CommitCovers(byTx, mid, w, c, lo, hi);
    CommitGrowsWithin(byTx, w, c, mid, lo, hi);
    TilesStayInside(tiles, start, i);
    GrowthJoins(db, mid, db', c, start, tiles[|tiles| - 1].hi, lo, hi);
    forall j | j in order + [i]
      ensures AllCovered(byTx, db', w, c, tiles[j].lo, tiles[j].hi)
    {
      if j in order {
        CoverageGrows(byTx, mid, db', w, c, tiles[j].lo, tiles[j].hi);
      }
    }
  }

  lemma RowsIgnoreCursor(
    byTx: Schema, w: World, c: nat, db: Db, tiles: seq<Tile>, start: nat, order: seq<nat>, a: Db, b: Db)
    requires WellFormed(w) && InWindow(order, tiles) && RowsSound(byTx, w, c, db, tiles, start, order, a)
    requires a.raw == b.raw && a.blocks == b.blocks && a.typed == b.typed
    ensures RowsSound(byTx, w, c, db, tiles, start, order, b)
  {
    forall j | j in order
      ensures AllCovered(byTx, b, w, c, tiles[j].lo, tiles[j].hi)
    {
      CoverageGrows(byTx, a, b, w, c, tiles[j].lo, tiles[j].hi);
    }
  }

  /** The cursor is written exactly when the prefix end changes. */
  lemma AdvanceFollowsPrefix(tiles: seq<Tile>, start: nat, order: seq<nat>, i: nat)
    requires Tiling(tiles, start) && Arrivals(order + [i], |tiles|)
    ensures InWindow(order, tiles) && i < |tiles|
    ensures var t := RecordedAll(tiles, start, order);
            var u := Recorded(t, tiles[i].lo, tiles[i].hi, tiles[i].last);
            && t.frontier !in t.waiting
            && (t.frontier == tiles[i].lo ==> u.advancedTo.Some?)
            && (t.frontier != tiles[i].lo ==> u.advancedTo == t.advancedTo && u.best == t.best)
  {
    var all := order + [i];
    assert all[|order|] == i;
    assert forall k :: 0 <= k < |order| ==> all[k] == order[k];
    RecordedAllReflects(tiles, start, order);
    RecordKeepsReflection(RecordedAll(tiles, start, order), tiles, start, Arrived(order), i);
    PrefixStable(Arrived(order), i, |tiles|, 0);
  }

  /** An arrival writes the cursor when the range was at the frontier, and leaves it otherwise. */
  lemma ArriveWrites(byTx: Schema, w: World, c: nat, d: Driving, tile: Tile, t: Tracker, u: Tracker)
    requires d.tracker == t && u == Recorded(t, tile.lo, tile.hi, tile.last) && t.frontier !in t.waiting
    requires t.frontier == tile.lo ==> u.advancedTo.Some?
    ensures var d' := Arrive(byTx, w, c, d, tile);
            && d'.tracker == u
            && d'.db.cursors == (if t.frontier == tile.lo then d.db.cursors[c := Checkpoint(u.advancedTo.value, BestHash(u))]
                                 else d.db.cursors)
  {
  }

  lemma ArriveCursor(byTx: Schema, w: World, c: nat, db: Db, tiles: seq<Tile>, start: nat, order: seq<nat>, d: Driving, i: nat)
    requires Tiling(tiles, start) && Arrivals(order + [i], |tiles|)
    requires InWindow(order, tiles) && InWindow(order + [i], tiles) && i < |tiles|
    requires CursorSound(c, db, tiles, start, order, d)
    ensures CursorSound(c, db, tiles, start, order + [i], Arrive(byTx, w, c, d, tiles[i]))
  {
    var t := RecordedAll(tiles, start, order);
    var u := Recorded(t, tiles[i].lo, tiles[i].hi, tiles[i].last);
    AdvanceFollowsPrefix(tiles, start, order, i);
    RecordedOneMore(tiles, start, order, i);
    ArriveWrites(byTx, w, c, d, tiles[i], t, u);
  }

  lemma ArriveSound(
    byTx: Schema, w: World, c: nat, db: Db, tiles: seq<Tile>, start: nat, order: seq<nat>, d: Driving, i: nat, d': Driving)
    requires WellFormed(w) && SchemaOk(byTx) && Tiling(tiles, start) && Arrivals(order + [i], |tiles|)
    requires InWindow(order, tiles) && InWindow(order + [i], tiles) && i < |tiles|
    requires Sound(byTx, w, c, db, tiles, start, order, d) && d' == Arrive(byTx, w, c, d, tiles[i])
    ensures Sound(byTx, w, c, db, tiles, start, order + [i], d')
  {
    CommitTileSound(byTx, w, c, db, tiles, start, order, d.db, i);
    ArriveCursor(byTx, w, c, db, tiles, start, order, d, i);
    var mid := CommitTile(byTx, w, c, d.db, tiles[i]);
    RowsIgnoreCursor(byTx, w, c, db, tiles, start, order + [i], mid, d'.db);
  }

  /** A drive is sound after any arrivals in any order. */
  lemma {:induction false} DriveIsSound(
    byTx: Schema, w: World, c: nat, db: Db, tiles: seq<Tile>, start: nat, order: seq<nat>)
    requires WellFormed(w) && SchemaOk(byTx) && Canonical(byTx, db, w) && Tiling(tiles, start)
    requires Arrivals(order, |tiles|)
    ensures Sound(byTx, w, c, db, tiles, start, order, Driven(byTx, w, c, db, tiles, start, order))
  {
    if order == [] {
    } else {
      var front, i := order[..|order| - 1], order[|order| - 1];
      assert order == front + [i];
      DriveIsSound(byTx, w, c, db, tiles, start, front);
      ArriveSound(byTx, w, c, db, tiles, start, front, Driven(byTx, w, c, db, tiles, start, front), i,
                  Driven(byTx, w, c, db, tiles, start, order));
    }
  }

  lemma {:induction false} PrefixOfAll(arrived: set<nat>, n: nat, i: nat)
    requires i <= n && forall j :: i <= j < n ==> j in arrived
    ensures PrefixFrom(arrived, n, i) == n
    decreases n - i
  {
  }

  /** Every planned range has arrived. */
  predicate Complete(order: seq<nat>, n: nat) {
    forall j :: 0 <= j < n ==> j in order
  }

  /** The heights below the cursor a drive writes are all committed, and a drive that saw every
      range writes the window's end. */
  lemma PrefixIsCovered(
    byTx: Schema, w: World, c: nat, db: Db, tiles: seq<Tile>, start: nat, order: seq<nat>, d: Driving)
    requires Tiling(tiles, start) && Arrivals(order, |tiles|)
    requires Sound(byTx, w, c, db, tiles, start, order, d)
    ensures d.tracker.advancedTo.Some? ==>
              && tiles != [] && start <= d.tracker.advancedTo.value <= tiles[|tiles| - 1].hi
              && AllCovered(byTx, d.db, w, c, start, d.tracker.advancedTo.value)
    ensures Complete(order, |tiles|) && tiles != [] ==> d.tracker.advancedTo == Some(tiles[|tiles| - 1].hi)
  {
    RecordedAllReflects(tiles, start, order);
    var arrived := Arrived(order);
    var p := PrefixFrom(arrived, |tiles|, 0);
    if Complete(order, |tiles|) {
      PrefixOfAll(arrived, |tiles|, 0);
    }
    if p > 0 {
      TilesStayInside(tiles, start, p - 1);
      forall h: nat | start <= h <= tiles[p - 1].hi
        ensures Covers(byTx, d.db, w, c, h)
      {
        var j := FindTile(tiles, start, p, h);
        assert j in arrived && j in order;
        assert AllCovered(byTx, d.db, w, c, tiles[j].lo, tiles[j].hi);
      }
    }
  }

  // ---------------------------------------------------------------- the block a cursor names

  /** `best` names the highest block with logs between the two heights, by height and hash, or nothing
      when there is none. */
  ghost predicate NamesHighest(w: World, c: nat, lo: nat, hi: int, best: Option<Checkpoint>) {
    match best
    case None => forall h: nat :: lo <= h <= hi ==> w(c, h).logs == []
    case Some(cp) =>
      && lo <= cp.height <= hi && w(c, cp.height).logs != [] && cp.hash == w(c, cp.height).meta.hash
      && forall h: nat :: cp.height < h <= hi ==> w(c, h).logs == []
  }

  lemma {:induction false} HighestMetaIsHighest(metas: seq<BlockMeta>)
    ensures HighestMeta(metas).None? <==> metas == []
    ensures forall m :: m in metas ==> m.height <= HighestMeta(metas).value.height
  {
    if metas != [] {
      var front, last := metas[..|metas| - 1], metas[|metas| - 1];
      HighestMetaIsHighest(front);
      assert metas == front + [last];
    }
  }

  lemma MetaIsABlock(w: World, c: nat, lo: nat, hi: int, m: BlockMeta)
    requires WellFormed(w) && m in RangeLogs(MetasAt(w, c), lo, hi)
    ensures lo <= m.height <= hi && w(c, m.height).logs != [] && m == w(c, m.height).meta
  {
    InRange(MetasAt(w, c), lo, hi, m);
    var h: nat :| lo <= h <= hi && m in MetasAt(w, c)(h);
    assert BlockOk(w(c, h), c, h);
  }

  lemma BlockIsAMeta(w: World, c: nat, lo: nat, hi: int, h: nat)
    requires WellFormed(w) && lo <= h <= hi && w(c, h).logs != []
    ensures w(c, h).meta in RangeLogs(MetasAt(w, c), lo, hi) && w(c, h).meta.height == h
  {
    assert w(c, h).meta in MetasAt(w, c)(h);
    InRange(MetasAt(w, c), lo, hi, w(c, h).meta);
    assert BlockOk(w(c, h), c, h);
  }

  /** A fetched range names its highest block with logs. */
  lemma TileNamesHighest(w: World, c: nat, span: Span, metas: seq<BlockMeta>)
    requires WellFormed(w) && metas == RangeLogs(MetasAt(w, c), span.lo, span.hi)
    ensures NamesHighest(w, c, span.lo, span.hi, HighestMeta(metas))
  {
    var best := HighestMeta(metas);
    HighestMetaIsHighest(metas);
    HighestMetaIsOne(metas);
    forall h: nat | span.lo <= h <= span.hi && w(c, h).logs != []
      ensures best.Some? && h <= best.value.height
    {
      BlockIsAMeta(w, c, span.lo, span.hi, h);
    }
    if best.Some? {
      var m :| m in metas && best.value == Checkpoint(m.height, m.hash);
      MetaIsABlock(w, c, span.lo, span.hi, m);
    }
  }

  lemma WindowNamesHighest(w: World, c: nat, next: nat, target: nat, step: nat, tiles: seq<Tile>, i: nat)
    requires WellFormed(w) && step >= 1 && tiles == Window(w, c, next, target, step) && i < |tiles|
    ensures NamesHighest(w, c, tiles[i].lo, tiles[i].hi, tiles[i].last)
  {
    var span := PlannedSpans(next, target, step)[i];
    TileNamesHighest(w, c, span, RangeLogs(MetasAt(w, c), span.lo, span.hi));
  }

  /** The block the first `p` tiles name is the highest one with logs in all of them. */
  lemma {:induction false} PrefixNamesHighest(w: World, c: nat, tiles: seq<Tile>, start: nat, p: nat)
    requires Tiling(tiles, start) && p <= |tiles|
    requires forall i :: 0 <= i < |tiles| ==> NamesHighest(w, c, tiles[i].lo, tiles[i].hi, tiles[i].last)
    ensures NamesHighest(w, c, start, Front(tiles, start, p) - 1, BestOf(tiles, p))
  {
    if p > 0 {
      var q := p - 1;
      PrefixNamesHighest(w, c, tiles, start, q);
      FrontIsStart(tiles, start, q, q);
      assert tiles[q].lo == Front(tiles, start, q);
      if q > 0 {
        TilesAscend(tiles, start, 0, q);
      }
    }
  }

  /** The cursor carries the hash of the highest block with logs from `lo` to its height, and none if
      there is no such block. */
  ghost predicate CarriesHighest(w: World, c: nat, lo: nat, cursor: Checkpoint) {
    && (forall h: nat :: lo <= h <= cursor.height && w(c, h).logs != [] && (forall g: nat :: h < g <= cursor.height ==> w(c, g).logs == []) ==>
          cursor.hash == w(c, h).meta.hash)
    && ((forall h: nat :: lo <= h <= cursor.height ==> w(c, h).logs == []) ==> cursor.hash == [])
  }

  lemma StampOf(w: World, c: nat, lo: nat, best: Option<Checkpoint>, cursor: Checkpoint)
    requires NamesHighest(w, c, lo, cursor.height, best) && cursor.hash == if best.Some? then best.value.hash else []
    ensures CarriesHighest(w, c, lo, cursor)
  {
    var a := cursor.height;
    forall h: nat | lo <= h <= a && w(c, h).logs != [] && (forall g: nat :: h < g <= a ==> w(c, g).logs == [])
      ensures cursor.hash == w(c, h).meta.hash
    {
      assert best.Some? && best.value.height == h;
    }
  }

  /** The cursor a drive leaves is at the end of the gap-free prefix, with the hash of the highest block
      with logs between the window's start and there; no other cursor changes. */
  lemma DriveStamps(byTx: Schema, w: World, c: nat, db: Db, next: nat, target: nat, step: nat, order: seq<nat>, d: Driving, a: nat)
    requires WellFormed(w) && SchemaOk(byTx) && Canonical(byTx, db, w) && step >= 1
    requires Arrivals(order, |Window(w, c, next, target, step)|)
    requires d == Driven(byTx, w, c, db, Window(w, c, next, target, step), next, order) && d.tracker.advancedTo == Some(a)
    ensures c in d.db.cursors && d.db.cursors[c].height == a && CarriesHighest(w, c, next, d.db.cursors[c])
    ensures d.db.cursors == db.cursors[c := d.db.cursors[c]]
  {
    var tiles := Window(w, c, next, target, step);
    WindowTiles(w, c, next, target, step);
    DriveIsSound(byTx, w, c, db, tiles, next, order);
    RecordedAllReflects(tiles, next, order);
    forall i | 0 <= i < |tiles|
      ensures NamesHighest(w, c, tiles[i].lo, tiles[i].hi, tiles[i].last)
    {
      WindowNamesHighest(w, c, next, target, step, tiles, i);
    }
    PrefixNamesHighest(w, c, tiles, next, PrefixFrom(Arrived(order), |tiles|, 0));
    StampOf(w, c, next, d.tracker.best, d.db.cursors[c]);
  }

  // ---------------------------------------------------------------- interrupted drives

  /** Where ingestion resumes: after the cursor, or at the configured start. */
  function Resume(db: Db, c: nat, startBlock: nat): (next: nat)
    ensures next >= 1
  {
    if c in db.cursors then db.cursors[c].height + 1
    else if startBlock == 0 then 1 else startBlock
  }

  /** One drive up to the point it stopped: the ranges that had arrived, and whether it stopped
      after the last commit but before the cursor write that would have followed. */
  datatype Attempt = Attempt(target: nat, step: nat, order: seq<nat>, torn: bool)

  ghost predicate ValidAttempt(w: World, c: nat, next: nat, a: Attempt) {
    a.step >= 1 && Arrivals(a.order, |Window(w, c, next, a.target, a.step)|)
  }

  ghost function Attempted(byTx: Schema, w: World, c: nat, db: Db, next: nat, a: Attempt): Db
    requires ValidAttempt(w, c, next, a)
  {
    var tiles := Window(w, c, next, a.target, a.step);
    if a.torn && a.order != [] then
      var front, last := a.order[..|a.order| - 1], a.order[|a.order| - 1];
      CommitTile(byTx, w, c, Driven(byTx, w, c, db, tiles, next, front).db, tiles[last])
    else Driven(byTx, w, c, db, tiles, next, a.order).db
  }

  ghost predicate CompleteAttempt(w: World, c: nat, next: nat, a: Attempt) {
    ValidAttempt(w, c, next, a) && !a.torn && Complete(a.order, |Window(w, c, next, a.target, a.step)|)
  }

  /** What an attempt from `next` towards `target` leaves: rows canonical, grown inside the
      window, and the cursor untouched or over a fully committed prefix. */
  ghost predicate AttemptSound(byTx: Schema, w: World, c: nat, db: Db, next: nat, target: nat, db': Db) {
    && Canonical(byTx, db', w)
    && GrewWithin(db, db', c, next, if next <= target then target else next - 1)
    && (db'.cursors == db.cursors ||
        (c in db'.cursors && db'.cursors == db.cursors[c := db'.cursors[c]] &&
         next <= db'.cursors[c].height <= target && AllCovered(byTx, db', w, c, next, db'.cursors[c].height)))
  }

  lemma DrivenAttempt(byTx: Schema, w: World, c: nat, db: Db, next: nat, target: nat, step: nat, order: seq<nat>)
    requires WellFormed(w) && SchemaOk(byTx) && Canonical(byTx, db, w) && step >= 1
    requires Arrivals(order, |Window(w, c, next, target, step)|)
    ensures var tiles := Window(w, c, next, target, step);
            var d := Driven(byTx, w, c, db, tiles, next, order);
            && AttemptSound(byTx, w, c, db, next, target, d.db)
            && (Complete(order, |tiles|) && next <= target ==>
                  d.tracker.advancedTo == Some(target) && c in d.db.cursors && d.db.cursors[c].height == target)
  {
    var tiles := Window(w, c, next, target, step);
    WindowTiles(w, c, next, target, step);
    DriveIsSound(byTx, w, c, db, tiles, next, order);
    PrefixIsCovered(byTx, w, c, db, tiles, next, order, Driven(byTx, w, c, db, tiles, next, order));
  }

  lemma TornAttempt(byTx: Schema, w: World, c: nat, db: Db, next: nat, target: nat, step: nat, order: seq<nat>, i: nat)
    requires WellFormed(w) && SchemaOk(byTx) && Canonical(byTx, db, w) && step >= 1
    requires Arrivals(order + [i], |Window(w, c, next, target, step)|)
    requires InWindow(order, Window(w, c, next, target, step)) && i < |Window(w, c, next, target, step)|
    ensures var tiles := Window(w, c, next, target, step);
            var d := Driven(byTx, w, c, db, tiles, next, order);
            AttemptSound(byTx, w, c, db, next, target, CommitTile(byTx, w, c, d.db, tiles[i]))
  {
    var tiles := Window(w, c, next, target, step);
    assert forall k :: 0 <= k < |order| ==> (order + [i])[k] == order[k];
    DrivenAttempt(byTx, w, c, db, next, target, step, order);
    WindowTiles(w, c, next, target, step);
    var mid := Driven(byTx, w, c, db, tiles, next, order).db;
    var db' := CommitTile(byTx, w, c, mid, tiles[i]);
    CommitCanonical(byTx, mid, w, c, tiles[i].lo, tiles[i].hi);
    CommitGrowsWithin(byTx, w, c, mid, tiles[i].lo, tiles[i].hi);
    TilesStayInside(tiles, next, i);
    GrowthJoins(db, mid, db', c, next, target, tiles[i].lo, tiles[i].hi);
    if mid.cursors != db.cursors {
      CoverageGrows(byTx, mid, db', w, c, next, mid.cursors[c].height);
    }
  }

  lemma AttemptIsSound(byTx: Schema, w: World, c: nat, db: Db, next: nat, a: Attempt)
    requires WellFormed(w) && SchemaOk(byTx) && Canonical(byTx, db, w) && ValidAttempt(w, c, next, a)
    ensures AttemptSound(byTx, w, c, db, next, a.target, Attempted(byTx, w, c, db, next, a))
    ensures CompleteAttempt(w, c, next, a) && next <= a.target ==>
              var db' := Attempted(byTx, w, c, db, next, a);
              c in db'.cursors && db'.cursors[c].height == a.target
  {
    if a.torn && a.order != [] {
      var front, last := a.order[..|a.order| - 1], a.order[|a.order| - 1];
      assert a.order == front + [last];
      TornAttempt(byTx, w, c, db, next, a.target, a.step, front, last);
    } else {
      DrivenAttempt(byTx, w, c, db, next, a.target, a.step, a.order);
    }
  }

  /** The rows and cursor of a drive that sees its whole window. */
  ghost predicate SweptRange(byTx: Schema, w: World, c: nat, db: Db, db': Db, next: nat, safe: nat) {
    && Canonical(byTx, db', w) && GrewWithin(db, db', c, next, safe) && AllCovered(byTx, db', w, c, next, safe)
    && c in db'.cursors && db'.cursors[c].height == safe
  }

  lemma FullDrive(byTx: Schema, w: World, c: nat, db: Db, next: nat, safe: nat, step: nat, order: seq<nat>, d: Driving)
    requires WellFormed(w) && SchemaOk(byTx) && Canonical(byTx, db, w) && step >= 1 && 1 <= next <= safe
    requires Arrivals(order, |Window(w, c, next, safe, step)|) && Complete(order, |Window(w, c, next, safe, step)|)
    requires d == Driven(byTx, w, c, db, Window(w, c, next, safe, step), next, order)
    ensures SweptRange(byTx, w, c, db, d.db, next, safe)
    ensures RecordedAll(Window(w, c, next, safe, step), next, order).advancedTo == Some(safe)
  {
    var tiles := Window(w, c, next, safe, step);
    WindowTiles(w, c, next, safe, step);
    DrivenAttempt(byTx, w, c, db, next, safe, step, order);
    DriveIsSound(byTx, w, c, db, tiles, next, order);
    PrefixIsCovered(byTx, w, c, db, tiles, next, order, d);
    DrivenTracks(byTx, w, c, db, tiles, next, order);
  }

  /** Attempts, each resumed after the cursor the one before it left. */
  ghost predicate ValidAttempts(byTx: Schema, w: World, c: nat, db: Db, startBlock: nat, attempts: seq<Attempt>)
    decreases |attempts|
  {
    attempts == [] ||
    (ValidAttempt(w, c, Resume(db, c, startBlock), attempts[0]) &&
     ValidAttempts(byTx, w, c, Attempted(byTx, w, c, db, Resume(db, c, startBlock), attempts[0]), startBlock, attempts[1..]))
  }

  ghost function AfterAttempts(byTx: Schema, w: World, c: nat, db: Db, startBlock: nat, attempts: seq<Attempt>): Db
    requires ValidAttempts(byTx, w, c, db, startBlock, attempts)
    decreases |attempts|
  {
    if attempts == [] then db
    else
      AfterAttempts(byTx, w, c, Attempted(byTx, w, c, db, Resume(db, c, startBlock), attempts[0]), startBlock, attempts[1..])
  }

  /** Where any number of attempts towards at most `target` can have got from `db`. */
  ghost predicate OnTheWay(byTx: Schema, w: World, c: nat, startBlock: nat, target: nat, db: Db, db': Db) {
    var start, at := Resume(db, c, startBlock), Resume(db', c, startBlock);
    && Canonical(byTx, db', w)
    && GrewWithin(db, db', c, start, target)
    && start <= at <= target + 1
    && AllCovered(byTx, db', w, c, start, at - 1)
    && (c in db'.cursors || at == start)
  }

  lemma AttemptStaysOnTheWay(
    byTx: Schema, w: World, c: nat, startBlock: nat, target: nat, db: Db, mid: Db, a: Attempt)
    requires WellFormed(w) && SchemaOk(byTx) && a.target <= target
    requires OnTheWay(byTx, w, c, startBlock, target, db, mid)
    requires ValidAttempt(w, c, Resume(mid, c, startBlock), a)
    ensures var db' := Attempted(byTx, w, c, mid, Resume(mid, c, startBlock), a);
            && OnTheWay(byTx, w, c, startBlock, target, db, db')
            && (CompleteAttempt(w, c, Resume(mid, c, startBlock), a) && a.target == target ==>
                  Resume(db', c, startBlock) == target + 1)
  {
    var next := Resume(mid, c, startBlock);
    var db' := Attempted(byTx, w, c, mid, next, a);
    AttemptIsSound(byTx, w, c, mid, next, a);
    var start := Resume(db, c, startBlock);
    GrowthJoins(db, mid, db', c, start, target, next, if next <= a.target then a.target else next - 1);
    CoverageGrows(byTx, mid, db', w, c, start, next - 1);
    assert Resume(db', c, startBlock) == next ||
           (next <= db'.cursors[c].height <= a.target && Resume(db', c, startBlock) == db'.cursors[c].height + 1);
  }

  lemma {:induction false} AttemptsStayOnTheWay(
    byTx: Schema, w: World, c: nat, startBlock: nat, target: nat, db: Db, mid: Db, attempts: seq<Attempt>)
    requires WellFormed(w) && SchemaOk(byTx)
    requires OnTheWay(byTx, w, c, startBlock, target, db, mid)
    requires ValidAttempts(byTx, w, c, mid, startBlock, attempts)
    requires forall i :: 0 <= i < |attempts| ==> attempts[i].target <= target
    ensures OnTheWay(byTx, w, c, startBlock, target, db, AfterAttempts(byTx, w, c, mid, startBlock, attempts))
    decreases |attempts|
  {
    if attempts != [] {
      AttemptStaysOnTheWay(byTx, w, c, startBlock, target, db, mid, attempts[0]);
      AttemptsStayOnTheWay(byTx, w, c, startBlock, target, db,
                           Attempted(byTx, w, c, mid, Resume(mid, c, startBlock), attempts[0]), attempts[1..]);
    }
  }

  // ---------------------------------------------------------------- closed form

  /** `db'` is `db` with the rows of `lo..=hi` added and nothing else. */
  ghost predicate Filled(byTx: Schema, db: Db, db': Db, w: World, c: nat, lo: nat, hi: nat) {
    && Canonical(byTx, db, w) && Canonical(byTx, db', w)
    && GrewWithin(db, db', c, lo, hi) && AllCovered(byTx, db', w, c, lo, hi)
  }

  lemma RawPresent(byTx: Schema, db: Db, db': Db, w: World, c: nat, lo: nat, hi: nat, k: Position)
    requires WellFormed(w) && Filled(byTx, db, db', w, c, lo, hi) && k in db'.raw
    ensures k in RawAfter(db.raw, w, c, lo, hi) && RawAfter(db.raw, w, c, lo, hi)[k] == db'.raw[k]
  {
    RawCommitted(db.raw, w, c, lo, hi);
    if k !in db.raw {
      RawCoversAt(db.raw, w, c, lo, hi, k.height, db'.raw[k]);
    }
    assert BlockOk(w(k.chain, k.height), k.chain, k.height);
  }

  lemma RawExpected(byTx: Schema, db: Db, db': Db, w: World, c: nat, lo: nat, hi: nat, k: Position)
    requires WellFormed(w) && Filled(byTx, db, db', w, c, lo, hi) && k in RawAfter(db.raw, w, c, lo, hi)
    ensures k in db'.raw
  {
    RawCommitted(db.raw, w, c, lo, hi);
    if k !in db.raw {
      assert Covers(byTx, db', w, c, k.height);
      assert RawAfter(db.raw, w, c, lo, hi)[k] in w(c, k.height).logs;
    }
  }

  lemma RawDetermined(byTx: Schema, db: Db, db': Db, w: World, c: nat, lo: nat, hi: nat, after: map<Position, RawRecord>)
    requires WellFormed(w) && Filled(byTx, db, db', w, c, lo, hi) && after == RawAfter(db.raw, w, c, lo, hi)
    ensures db'.raw == after
  {
    forall k | k in db'.raw
      ensures k in after && after[k] == db'.raw[k]
    {
      RawPresent(byTx, db, db', w, c, lo, hi, k);
    }
    forall k | k in after
      ensures k in db'.raw
    {
      RawExpected(byTx, db, db', w, c, lo, hi, k);
    }
    MapsAgree(db'.raw, after);
  }

  lemma BlockPresent(byTx: Schema, db: Db, db': Db, w: World, c: nat, lo: nat, hi: nat, k: BlockAt)
    requires WellFormed(w) && Filled(byTx, db, db', w, c, lo, hi) && k in db'.blocks
    ensures k in BlocksAfter(db.blocks, w, c, lo, hi) && BlocksAfter(db.blocks, w, c, lo, hi)[k] == db'.blocks[k]
  {
    BlocksCommitted(db.blocks, w, c, lo, hi);
    if k !in db.blocks {
      BlocksCoverAt(db.blocks, w, c, lo, hi, k.height);
    }
  }

  lemma BlockExpected(byTx: Schema, db: Db, db': Db, w: World, c: nat, lo: nat, hi: nat, k: BlockAt)
    requires WellFormed(w) && Filled(byTx, db, db', w, c, lo, hi) && k in BlocksAfter(db.blocks, w, c, lo, hi)
    ensures k in db'.blocks
  {
    BlocksCommitted(db.blocks, w, c, lo, hi);
    if k !in db.blocks {
      assert Covers(byTx, db', w, c, k.height);
      assert k == BlockAt(c, k.height);
    }
  }

  lemma BlocksDetermined(byTx: Schema, db: Db, db': Db, w: World, c: nat, lo: nat, hi: nat)
    requires WellFormed(w) && Filled(byTx, db, db', w, c, lo, hi)
    ensures db'.blocks == BlocksAfter(db.blocks, w, c, lo, hi)
  {
    var after := BlocksAfter(db.blocks, w, c, lo, hi);
    forall k | k in db'.blocks
      ensures k in after && after[k] == db'.blocks[k]
    {
      BlockPresent(byTx, db, db', w, c, lo, hi, k);
    }
    forall k | k in after
      ensures k in db'.blocks
    {
      BlockExpected(byTx, db, db', w, c, lo, hi, k);
    }
  }

  lemma AuxPresent(byTx: Schema, db: Db, db': Db, w: World, c: nat, lo: nat, hi: nat, k: RowKey)
    requires WellFormed(w) && SchemaOk(byTx) && Filled(byTx, db, db', w, c, lo, hi) && k in db'.typed
    ensures k in AuxAfter(byTx, db.typed, w, c, lo, hi) && AuxAfter(byTx, db.typed, w, c, lo, hi)[k] == db'.typed[k]
  {
    AuxCommitted(byTx, db.typed, w, c, lo, hi);
    if k !in db.typed {
      AuxCoversAt(byTx, db.typed, w, c, lo, hi, db'.typed[k].height, db'.typed[k]);
    }
  }

  lemma AuxExpected(byTx: Schema, db: Db, db': Db, w: World, c: nat, lo: nat, hi: nat, k: RowKey)
    requires WellFormed(w) && SchemaOk(byTx) && Filled(byTx, db, db', w, c, lo, hi)
    requires k in AuxAfter(byTx, db.typed, w, c, lo, hi)
    ensures k in db'.typed
  {
    AuxCommitted(byTx, db.typed, w, c, lo, hi);
    var x := AuxAfter(byTx, db.typed, w, c, lo, hi)[k];
    if k !in db.typed {
      assert Covers(byTx, db', w, c, x.height);
      assert x in w(c, x.height).aux;
    }
  }

  lemma MapsAgree<K, V>(a: map<K, V>, b: map<K, V>)
    requires forall k :: k in a ==> k in b && b[k] == a[k]
    requires forall k :: k in b ==> k in a
    ensures a == b
  {
  }

  lemma AuxDetermined(byTx: Schema, db: Db, db': Db, w: World, c: nat, lo: nat, hi: nat, after: map<RowKey, EventRow>)
    requires WellFormed(w) && SchemaOk(byTx) && Filled(byTx, db, db', w, c, lo, hi)
    requires after == AuxAfter(byTx, db.typed, w, c, lo, hi)
    ensures db'.typed == after
  {
    forall k | k in db'.typed
      ensures k in after && after[k] == db'.typed[k]
    {
      AuxPresent(byTx, db, db', w, c, lo, hi, k);
    }
    forall k | k in after
      ensures k in db'.typed
    {
      AuxExpected(byTx, db, db', w, c, lo, hi, k);
    }
    MapsAgree(db'.typed, after);
  }

  lemma ArrivedIsOneCommit(byTx: Schema, w: World, c: nat, startBlock: nat, target: nat, db: Db, db': Db)
    requires WellFormed(w) && SchemaOk(byTx) && Canonical(byTx, db, w)
    requires OnTheWay(byTx, w, c, startBlock, target, db, db') && Resume(db', c, startBlock) == target + 1
    ensures var start := Resume(db, c, startBlock);
            && db'.raw == RawAfter(db.raw, w, c, start, target)
            && db'.blocks == BlocksAfter(db.blocks, w, c, start, target)
            && db'.typed == AuxAfter(byTx, db.typed, w, c, start, target)
  {
    var start := Resume(db, c, startBlock);
    assert Filled(byTx, db, db', w, c, start, target);
    RawDetermined(byTx, db, db', w, c, start, target, RawAfter(db.raw, w, c, start, target));
    BlocksDetermined(byTx, db, db', w, c, start, target);
    AuxDetermined(byTx, db, db', w, c, start, target, AuxAfter(byTx, db.typed, w, c, start, target));
  }

  /** Any number of drives towards at most `target`, stopped anywhere and each resumed after the
      cursor the last one left, followed by one complete drive, leave the rows of one single
      commit of the whole range and the cursor at `target`. */
  lemma InterruptedDrivesConverge(
    byTx: Schema, w: World, c: nat, startBlock: nat, db: Db, attempts: seq<Attempt>, final: Attempt)
    requires WellFormed(w) && SchemaOk(byTx) && Canonical(byTx, db, w)
    requires Resume(db, c, startBlock) <= final.target
    requires ValidAttempts(byTx, w, c, db, startBlock, attempts)
    requires forall i :: 0 <= i < |attempts| ==> attempts[i].target <= final.target
    requires CompleteAttempt(w, c, Resume(AfterAttempts(byTx, w, c, db, startBlock, attempts), c, startBlock), final)
    ensures var start := Resume(db, c, startBlock);
            var mid := AfterAttempts(byTx, w, c, db, startBlock, attempts);
            var db' := Attempted(byTx, w, c, mid, Resume(mid, c, startBlock), final);
            && db'.raw == RawAfter(db.raw, w, c, start, final.target)
            && db'.blocks == BlocksAfter(db.blocks, w, c, start, final.target)
            && db'.typed == AuxAfter(byTx, db.typed, w, c, start, final.target)
            && c in db'.cursors && db'.cursors[c].height == final.target
  {
    assert OnTheWay(byTx, w, c, startBlock, final.target, db, db);
    AttemptsStayOnTheWay(byTx, w, c, startBlock, final.target, db, db, attempts);
    var mid := AfterAttempts(byTx, w, c, db, startBlock, attempts);
    AttemptStaysOnTheWay(byTx, w, c, startBlock, final.target, db, mid, final);
    ArrivedIsOneCommit(byTx, w, c, startBlock, final.target, db,
                       Attempted(byTx, w, c, mid, Resume(mid, c, startBlock), final));
  }
}
