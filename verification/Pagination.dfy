/** Keyset pagination: filters become conditions over binds, a page is the first rows past a cursor
    in `(height, idx)` order, and walking page to page should visit every matching row once. */
module Pagination {
  import opened Model
  import opened Cursor

  /** A stored row: its position and its columns. */
  datatype Row = Row(height: I64, idx: I64, columns: map<string, EventValue>)

  function KeyOf(r: Row): Key {
    Key(r.height, r.idx)
  }

  // ---------------------------------------------------------------- filters

  datatype Op = Eq | Ne | Gt | Gte | Lt | Lte

  datatype Filter = Filter(column: string, op: Op, value: string)

  datatype Bind = IntBind(x: I64) | BytesBind(bytes: seq<Byte>) | BoolBind(flag: bool) | TextBind(text: string)

  /** A `WHERE` condition; parameters are numbered from one. */
  datatype Cond = OnColumn(column: string, op: Op, param: nat) | PastKey(descending: bool, param: nat)

  /** A table as the read side knows it: the typed bind of a filter value, if the column exists and
      takes it, and the database's comparison of a row's column with a bind. */
  datatype Columns = Columns(bind: (string, string) -> Option<Bind>, compare: (Row, string, Op, Bind) -> bool)

  function BindOf(cols: Columns, f: Filter): Option<Bind> {
    cols.bind(f.column, f.value)
  }

  predicate Filterable(cols: Columns, filters: seq<Filter>) {
    forall i :: 0 <= i < |filters| ==> BindOf(cols, filters[i]).Some?
  }

  /** The row passes every filter. */
  predicate Passes(cols: Columns, filters: seq<Filter>, r: Row)
    requires Filterable(cols, filters)
  {
    forall i :: 0 <= i < |filters| ==> cols.compare(r, filters[i].column, filters[i].op, BindOf(cols, filters[i]).value)
  }

  /** Strict order on positions. */
  predicate Less(a: Key, b: Key) {
    a.height < b.height || (a.height == b.height && a.idx < b.idx)
  }

  /** `a` comes after `b` in the direction of the walk. */
  predicate Beyond(descending: bool, a: Key, b: Key) {
    if descending then Less(a, b) else Less(b, a)
  }

  /** The row meets the condition under the binds. */
  predicate Holds(cols: Columns, binds: seq<Bind>, cond: Cond, r: Row) {
    match cond
    case OnColumn(column, op, param) => 1 <= param <= |binds| && cols.compare(r, column, op, binds[param - 1])
    case PastKey(descending, param) =>
      && 1 <= param < |binds| && binds[param - 1].IntBind? && binds[param].IntBind?
      && Beyond(descending, KeyOf(r), Key(binds[param - 1].x, binds[param].x))
  }

  predicate AllHold(cols: Columns, binds: seq<Bind>, conds: seq<Cond>, r: Row) {
    forall i :: 0 <= i < |conds| ==> Holds(cols, binds, conds[i], r)
  }

  /** Conditions and binds for the filters. Later binds may be appended without changing what the
      conditions mean. An unknown column or unusable value is an error. */
  method BuildFilters(cols: Columns, filters: seq<Filter>) returns (r: Result<(seq<Cond>, seq<Bind>), string>)
    ensures r.Ok? <==> Filterable(cols, filters)
    ensures r.Ok? ==>
              |r.value.1| == |filters| &&
              forall more, row :: AllHold(cols, r.value.1 + more, r.value.0, row) <==> Passes(cols, filters, row)
  {
    var conds: seq<Cond>, binds: seq<Bind> := [], [];
    for i := 0 to |filters|
      invariant |conds| == |binds| == i
      invariant forall j :: 0 <= j < i ==> BindOf(cols, filters[j]) == Some(binds[j])
      invariant forall j :: 0 <= j < i ==> conds[j] == OnColumn(filters[j].column, filters[j].op, j + 1)
    {
      var bind := BindOf(cols, filters[i]);
      if bind.None? {
        return Err("unknown filter column or bad value");
      }
      conds := conds + [OnColumn(filters[i].column, filters[i].op, |binds| + 1)];
      binds := binds + [bind.value];
    }
    forall more, row
      ensures AllHold(cols, binds + more, conds, row) <==> Passes(cols, filters, row)
    {
      ConditionsMeanFilters(cols, filters, conds, binds, more, row);
    }
    return Ok((conds, binds));
  }

  lemma ConditionsMeanFilters(cols: Columns, filters: seq<Filter>, conds: seq<Cond>, binds: seq<Bind>, more: seq<Bind>, row: Row)
    requires |conds| == |binds| == |filters|
    requires forall j :: 0 <= j < |filters| ==> BindOf(cols, filters[j]) == Some(binds[j])
    requires forall j :: 0 <= j < |filters| ==> conds[j] == OnColumn(filters[j].column, filters[j].op, j + 1)
    ensures AllHold(cols, binds + more, conds, row) <==> Passes(cols, filters, row)
  {
  }

  // ---------------------------------------------------------------- selection

  /** The rows that satisfy `p`, in place. */
  function Only(p: Row -> bool, rows: seq<Row>): (kept: seq<Row>)
    ensures |kept| <= |rows|
    ensures forall r :: r in kept ==> r in rows && p(r)
  {
    if rows == [] then []
    else
      var front, last := Only(p, rows[..|rows| - 1]), rows[|rows| - 1];
      if p(last) then front + [last] else front
  }

  predicate Sorted(descending: bool, rows: seq<Row>) {
    forall i, j :: 0 <= i < j < |rows| ==> !Beyond(descending, KeyOf(rows[i]), KeyOf(rows[j]))
  }

  function Place(descending: bool, rows: seq<Row>, r: Row): seq<Row> {
    if rows == [] then [r]
    else
      var front, last := rows[..|rows| - 1], rows[|rows| - 1];
      if Beyond(descending, KeyOf(last), KeyOf(r)) then Place(descending, front, r) + [last] else rows + [r]
  }

  lemma {:induction false} PlaceKeeps(descending: bool, rows: seq<Row>, r: Row)
    ensures multiset(Place(descending, rows, r)) == multiset(rows) + multiset{r}
  {
    if rows != [] {
      var front, last := rows[..|rows| - 1], rows[|rows| - 1];
      assert rows == front + [last];
      PlaceKeeps(descending, front, r);
    }
  }

  /** Everything placed is an old row or the new one. */
  lemma PlacedBefore(descending: bool, rows: seq<Row>, r: Row, last: Row)
    requires forall i :: 0 <= i < |rows| ==> !Beyond(descending, KeyOf(rows[i]), KeyOf(last))
    requires !Beyond(descending, KeyOf(r), KeyOf(last))
    ensures forall x :: x in Place(descending, rows, r) ==> !Beyond(descending, KeyOf(x), KeyOf(last))
  {
  }

  lemma SortedAppend(descending: bool, rows: seq<Row>, last: Row)
    requires Sorted(descending, rows) && forall x :: x in rows ==> !Beyond(descending, KeyOf(x), KeyOf(last))
    ensures Sorted(descending, rows + [last])
  {
  }

  lemma {:induction false} PlaceSorts(descending: bool, rows: seq<Row>, r: Row)
    requires Sorted(descending, rows)
    ensures Sorted(descending, Place(descending, rows, r))
  {
    if rows != [] {
      var front, last := rows[..|rows| - 1], rows[|rows| - 1];
      if Beyond(descending, KeyOf(last), KeyOf(r)) {
        PlaceSorts(descending, front, r);
        PlacedBefore(descending, front, r, last);
        SortedAppend(descending, Place(descending, front, r), last);
      } else {
        forall x | x in rows
          ensures !Beyond(descending, KeyOf(x), KeyOf(r))
        {
          var i :| 0 <= i < |rows| && rows[i] == x;
          assert i < |rows| - 1 ==> !Beyond(descending, KeyOf(rows[i]), KeyOf(last));
        }
        SortedAppend(descending, rows, r);
      }
    }
  }

  function RowsMeeting(cols: Columns, binds: seq<Bind>, conds: seq<Cond>): Row -> bool {
    (r: Row) => AllHold(cols, binds, conds, r)
  }

  /** `SELECT … WHERE conds ORDER BY height, idx LIMIT limit`: the database's part. `all` is what the
      limit cuts from. */
  method Select(table: seq<Row>, cols: Columns, conds: seq<Cond>, binds: seq<Bind>, descending: bool, limit: nat)
    returns (out: seq<Row>, all: seq<Row>)
    ensures Sorted(descending, all) && multiset(all) == multiset(Only(RowsMeeting(cols, binds, conds), table))
    ensures out == all[..if |all| < limit then |all| else limit]
  {
    var found: seq<Row> := [];
    for i := 0 to |table|
      invariant Sorted(descending, found)
      invariant multiset(found) == multiset(Only(RowsMeeting(cols, binds, conds), table[..i]))
    {
      assert table[..i + 1][..i] == table[..i];
      if AllHold(cols, binds, conds, table[i]) {
        PlaceSorts(descending, found, table[i]);
        PlaceKeeps(descending, found, table[i]);
        found := Place(descending, found, table[i]);
      }
    }
    assert table[..|table|] == table;
    all := found;
    out := found[..if |found| < limit then |found| else limit];
  }

  // ---------------------------------------------------------------- pages

  datatype Page = Page(items: seq<Row>, endCursor: Option<string>, hasNext: bool)

  datatype QuerySpec = QuerySpec(filters: seq<Filter>, first: nat, after: Option<string>, descending: bool)

  const MAX_PAGE := 1000

  function PageSize(first: nat): (n: nat)
    ensures 1 <= n <= MAX_PAGE && (1 <= first <= MAX_PAGE ==> n == first)
  {
    if first < 1 then 1 else if first > MAX_PAGE then MAX_PAGE else first
  }

  /** Where a cursor says to start: nowhere, past a key, or an error. */
  function AfterOf(cursor: Option<string>): Result<Option<Key>, string> {
    match cursor
    case None => Ok(None)
    case Some(s) =>
      match ParseCursor(s)
      case Ok(k) => Ok(Some(k))
      case Err(e) => Err(e)
  }

  /** The rows that pass `p` and lie past the key. */
  function Past(p: Row -> bool, descending: bool, after: Option<Key>): Row -> bool {
    (r: Row) => p(r) && (after.Some? ==> Beyond(descending, KeyOf(r), after.value))
  }

  /** The page of `size` rows past `after`, cut from `all`, the sorted rows past it. */
  ghost predicate PageOf(p: Row -> bool, table: seq<Row>, descending: bool, size: nat, after: Option<Key>, page: Page, all: seq<Row>)
    requires size >= 1
  {
    && Sorted(descending, all) && multiset(all) == multiset(Only(Past(p, descending, after), table))
    && page.hasNext == (|all| > size)
    && page.items == (if page.hasNext then all[..size] else all)
    && page.endCursor == (if page.hasNext then Some(FormatCursor(KeyOf(all[size - 1]))) else None)
  }

  /** In the order of the query: by height and then index, lowest first, or the other way round. */
  predicate InPlace(descending: bool, first: Row, second: Row) {
    var (a, b) := if descending then (second, first) else (first, second);
    a.height < b.height || (a.height == b.height && a.idx <= b.idx)
  }

  ghost predicate ByPosition(descending: bool, rows: seq<Row>) {
    forall i, j :: 0 <= i < j < |rows| ==> InPlace(descending, rows[i], rows[j])
  }

  /** Strictly after the key in that order. */
  ghost predicate StrictlyAfter(descending: bool, k: Key, r: Row) {
    if descending then r.height < k.height || (r.height == k.height && r.idx < k.idx)
    else r.height > k.height || (r.height == k.height && r.idx > k.idx)
  }

  lemma InPlaceMeans(descending: bool, first: Row, second: Row)
    ensures InPlace(descending, first, second) <==> !Beyond(descending, KeyOf(first), KeyOf(second))
  {
  }

  lemma SortedMeans(descending: bool, rows: seq<Row>)
    ensures Sorted(descending, rows) <==> ByPosition(descending, rows)
  {
    forall i, j | 0 <= i < j < |rows|
      ensures InPlace(descending, rows[i], rows[j]) <==> !Beyond(descending, KeyOf(rows[i]), KeyOf(rows[j]))
    {
      InPlaceMeans(descending, rows[i], rows[j]);
    }
  }

  /** The rows a page is cut from: those of the table that pass and lie strictly after the cursor's. */
  lemma AllMeans(p: Row -> bool, table: seq<Row>, descending: bool, after: Option<Key>, all: seq<Row>, r: Row)
    requires multiset(all) == multiset(Only(Past(p, descending, after), table))
    ensures r in all <==> r in table && p(r) && (after.Some? ==> StrictlyAfter(descending, after.value, r))
  {
    var past := Past(p, descending, after);
    OnlyMembers(past, table);
    SameMembers(all, Only(past, table), r);
    PastMeans(p, descending, after, r);
  }

  lemma SameMembers(a: seq<Row>, b: seq<Row>, r: Row)
    requires multiset(a) == multiset(b)
    ensures r in a <==> r in b
  {
    assert r in multiset(a) <==> r in multiset(b);
  }

  lemma PastMeans(p: Row -> bool, descending: bool, after: Option<Key>, r: Row)
    ensures Past(p, descending, after)(r) <==> p(r) && (after.Some? ==> StrictlyAfter(descending, after.value, r))
  {
  }

  /** What a page is, on the columns themselves: rows of the table that pass, by position, strictly
      after the cursor's; its end cursor is the position of its last row. */
  lemma PageMeans(p: Row -> bool, table: seq<Row>, descending: bool, size: nat, after: Option<Key>, page: Page, all: seq<Row>)
    requires size >= 1 && PageOf(p, table, descending, size, after, page, all)
    ensures ByPosition(descending, page.items) && |page.items| <= size
    ensures forall r :: r in all <==> r in table && p(r) && (after.Some? ==> StrictlyAfter(descending, after.value, r))
    ensures page.hasNext ==>
              && |page.items| == size < |all| && page.endCursor.Some?
              && ParseCursor(page.endCursor.value) == Ok(Key(page.items[size - 1].height, page.items[size - 1].idx))
    ensures !page.hasNext ==> page.endCursor.None? && page.items == all
  {
    if page.hasNext {
      SortedHead(descending, all, size);
      CursorRoundTrip(KeyOf(all[size - 1]));
    }
    SortedMeans(descending, page.items);
    forall r
      ensures r in all <==> r in table && p(r) && (after.Some? ==> StrictlyAfter(descending, after.value, r))
    {
      AllMeans(p, table, descending, after, all, r);
    }
  }

  lemma {:induction false} OnlyMembers(p: Row -> bool, rows: seq<Row>)
    ensures forall r :: r in Only(p, rows) <==> r in rows && p(r)
  {
    if rows != [] {
      OnlyMembers(p, rows[..|rows| - 1]);
      assert rows == rows[..|rows| - 1] + [rows[|rows| - 1]];
    }
  }

  function PassesAll(cols: Columns, filters: seq<Filter>): Row -> bool
    requires Filterable(cols, filters)
  {
    (r: Row) => Passes(cols, filters, r)
  }

  lemma {:induction false} OnlyAgrees(p: Row -> bool, q: Row -> bool, rows: seq<Row>)
    requires forall r :: p(r) <==> q(r)
    ensures Only(p, rows) == Only(q, rows)
  {
    if rows != [] {
      OnlyAgrees(p, q, rows[..|rows| - 1]);
    }
  }

  /** With the key's two binds appended, the conditions select the passing rows past the key. */
  lemma KeysetMeans(cols: Columns, filters: seq<Filter>, conds: seq<Cond>, binds: seq<Bind>, descending: bool, k: Key, row: Row)
    requires Filterable(cols, filters) && |binds| == |filters|
    requires forall more, r :: AllHold(cols, binds + more, conds, r) <==> Passes(cols, filters, r)
    ensures AllHold(cols, binds + [IntBind(k.height), IntBind(k.idx)], conds + [PastKey(descending, |binds| + 1)], row) <==>
            Past(PassesAll(cols, filters), descending, Some(k))(row)
  {
    var all := binds + [IntBind(k.height), IntBind(k.idx)];
    var cs := conds + [PastKey(descending, |binds| + 1)];
    assert all[|binds|] == IntBind(k.height) && all[|binds| + 1] == IntBind(k.idx);
    assert Holds(cols, all, cs[|conds|], row) <==> Beyond(descending, KeyOf(row), k);
    assert (forall i :: 0 <= i < |conds| ==> Holds(cols, all, cs[i], row)) <==> AllHold(cols, all, conds, row) by {
      assert forall i :: 0 <= i < |conds| ==> cs[i] == conds[i];
    }
    assert AllHold(cols, all, conds, row) <==> Passes(cols, filters, row);
  }

  /** One page of the filtered table past the cursor; an error exactly for an unusable filter or a
      cursor that does not parse. `all` is everything past the cursor. */
  method Query(table: seq<Row>, cols: Columns, spec: QuerySpec) returns (r: Result<Page, string>, ghost all: seq<Row>)
    ensures r.Ok? <==> Filterable(cols, spec.filters) && AfterOf(spec.after).Ok?
    ensures r.Ok? ==>
              PageOf(PassesAll(cols, spec.filters), table, spec.descending, PageSize(spec.first), AfterOf(spec.after).value, r.value, all)
    ensures r.Ok? ==> ByPosition(spec.descending, r.value.items)
    ensures r.Ok? && AfterOf(spec.after).value.Some? ==>
              forall row :: row in r.value.items ==> StrictlyAfter(spec.descending, AfterOf(spec.after).value.value, row)
  {
    all := [];
    var size := PageSize(spec.first);
    var built := BuildFilters(cols, spec.filters);
    if built.Err? {
      return Err(built.error), [];
    }
    var (conds, binds) := built.value;
    var after := AfterOf(spec.after);
    if after.Err? {
      return Err(after.error), [];
    }
    ghost var p := Past(PassesAll(cols, spec.filters), spec.descending, after.value);
    if after.value.Some? {
      var k := after.value.value;
      forall row
        ensures RowsMeeting(cols, binds + [IntBind(k.height), IntBind(k.idx)], conds + [PastKey(spec.descending, |binds| + 1)])(row) <==> p(row)
      {
        KeysetMeans(cols, spec.filters, conds, binds, spec.descending, k, row);
      }
      conds := conds + [PastKey(spec.descending, |binds| + 1)];
      binds := binds + [IntBind(k.height), IntBind(k.idx)];
    } else {
      assert binds + [] == binds;
    }
    OnlyAgrees(RowsMeeting(cols, binds, conds), p, table);
    var rows, found := Select(table, cols, conds, binds, spec.descending, size + 1);
    all := found;
    var page := PageFrom(rows, size);
    PageMeans(PassesAll(cols, spec.filters), table, spec.descending, size, after.value, page, all);
    return Ok(page), all;
  }

  /** The page from `size + 1` rows: the last one only says whether there is a next page. */
  method PageFrom(rows: seq<Row>, size: nat) returns (page: Page)
    requires size >= 1
    ensures page.hasNext == (|rows| > size)
    ensures page.items == (if page.hasNext then rows[..size] else rows)
    ensures page.endCursor == (if page.hasNext then Some(FormatCursor(KeyOf(rows[size - 1]))) else None)
  {
    var hasNext := |rows| > size;
    var items: seq<Row>, endCursor := [], None;
    var n := if hasNext then size else |rows|;
    for i := 0 to n
      invariant items == rows[..i]
      invariant endCursor == (if i == 0 then None else Some(FormatCursor(KeyOf(rows[i - 1]))))
    {
      endCursor := Some(FormatCursor(KeyOf(rows[i])));
      items := items + [rows[i]];
    }
    return Page(items, if hasNext then endCursor else None, hasNext);
  }

  /** How many rows pass the filters, whatever the cursor and page size. */
  method Count(table: seq<Row>, cols: Columns, spec: QuerySpec) returns (r: Result<nat, string>)
    ensures r.Ok? <==> Filterable(cols, spec.filters)
    ensures r.Ok? ==> r.value == |Only(PassesAll(cols, spec.filters), table)|
  {
    var built := BuildFilters(cols, spec.filters);
    if built.Err? {
      return Err(built.error);
    }
    var (conds, binds) := built.value;
    assert binds + [] == binds;
    var n := 0;
    for i := 0 to |table|
      invariant n == |Only(PassesAll(cols, spec.filters), table[..i])|
    {
      assert table[..i + 1][..i] == table[..i];
      if AllHold(cols, binds, conds, table[i]) {
        n := n + 1;
      }
    }
    assert table[..|table|] == table;
    return Ok(n);
  }

  // ---------------------------------------------------------------- bags of rows

  lemma {:induction false} OnlyCounts(p: Row -> bool, rows: seq<Row>, x: Row)
    ensures multiset(Only(p, rows))[x] == if p(x) then multiset(rows)[x] else 0
  {
    if rows != [] {
      OnlyCounts(p, rows[..|rows| - 1], x);
      assert rows == rows[..|rows| - 1] + [rows[|rows| - 1]];
    }
  }

  lemma OnlyOfSameBag(p: Row -> bool, a: seq<Row>, b: seq<Row>)
    requires multiset(a) == multiset(b)
    ensures multiset(Only(p, a)) == multiset(Only(p, b))
    ensures |Only(p, a)| == |Only(p, b)|
  {
    forall x: Row
      ensures multiset(Only(p, a))[x] == multiset(Only(p, b))[x]
    {
      OnlyCounts(p, a, x);
      OnlyCounts(p, b, x);
    }
    assert multiset(Only(p, a)) == multiset(Only(p, b));
    SizeOfBag(Only(p, a));
    SizeOfBag(Only(p, b));
  }

  lemma SizeOfBag(s: seq<Row>)
    ensures |multiset(s)| == |s|
  {
  }

  lemma {:induction false} OnlyConcat(p: Row -> bool, a: seq<Row>, b: seq<Row>)
    ensures Only(p, a + b) == Only(p, a) + Only(p, b)
  {
    if b == [] {
      assert a + b == a;
    } else {
      assert (a + b)[..|a + b| - 1] == a + b[..|b| - 1];
      OnlyConcat(p, a, b[..|b| - 1]);
    }
  }

  lemma {:induction false} OnlyNone(p: Row -> bool, rows: seq<Row>)
    requires forall r :: r in rows ==> !p(r)
    ensures Only(p, rows) == []
  {
    if rows != [] {
      OnlyNone(p, rows[..|rows| - 1]);
    }
  }

  /** Two predicates that share the rows out between them split the bag. */
  lemma {:induction false} OnlySplits(p: Row -> bool, q: Row -> bool, rows: seq<Row>)
    requires forall r :: r in rows ==> (p(r) <==> !q(r))
    ensures multiset(Only(p, rows)) + multiset(Only(q, rows)) == multiset(rows)
    ensures |Only(p, rows)| + |Only(q, rows)| == |rows|
  {
    if rows != [] {
      OnlySplits(p, q, rows[..|rows| - 1]);
    }
    forall x: Row
      ensures multiset(Only(p, rows))[x] + multiset(Only(q, rows))[x] == multiset(rows)[x]
    {
      OnlyCounts(p, rows, x);
      OnlyCounts(q, rows, x);
    }
  }

  // ---------------------------------------------------------------- what the next page starts from

  function BeyondKey(descending: bool, k: Key): Row -> bool {
    (r: Row) => Beyond(descending, KeyOf(r), k)
  }

  function AtKey(k: Key): Row -> bool {
    (r: Row) => KeyOf(r) == k
  }

  lemma {:induction false} OnlyOfOnly(p: Row -> bool, descending: bool, after: Option<Key>, cut: Key, table: seq<Row>)
    requires after.Some? ==> Beyond(descending, cut, after.value)
    ensures Only(Past(p, descending, Some(cut)), table) == Only(BeyondKey(descending, cut), Only(Past(p, descending, after), table))
  {
    if table != [] {
      var front, last := table[..|table| - 1], table[|table| - 1];
      OnlyOfOnly(p, descending, after, cut, front);
      if Past(p, descending, after)(last) {
        var kept := Only(Past(p, descending, after), front) + [last];
        assert kept[..|kept| - 1] == Only(Past(p, descending, after), front);
      }
    }
  }

  /** The rows a page break leaves out: those after it with the key it was made at. */
  ghost function Skipped(size: nat, all: seq<Row>): nat
    requires size >= 1
  {
    if |all| <= size then 0 else |Only(AtKey(KeyOf(all[size - 1])), all[size..])|
  }

  lemma HeadRowIsNotBeyond(descending: bool, all: seq<Row>, size: nat, r: Row)
    requires 1 <= size < |all| && Sorted(descending, all) && r in all[..size]
    ensures !BeyondKey(descending, KeyOf(all[size - 1]))(r)
  {
  }

  lemma HeadIsNotBeyond(descending: bool, all: seq<Row>, size: nat, beyond: Row -> bool)
    requires 1 <= size < |all| && Sorted(descending, all) && beyond == BeyondKey(descending, KeyOf(all[size - 1]))
    ensures Only(beyond, all) == Only(beyond, all[size..])
  {
    forall r | r in all[..size]
      ensures !beyond(r)
    {
      HeadRowIsNotBeyond(descending, all, size, r);
    }
    DropHead(beyond, all[..size], all[size..]);
    assert all[..size] + all[size..] == all;
  }

  lemma DropHead(p: Row -> bool, head: seq<Row>, tail: seq<Row>)
    requires forall r :: r in head ==> !p(r)
    ensures Only(p, head + tail) == Only(p, tail)
  {
    OnlyNone(p, head);
    OnlyConcat(p, head, tail);
  }

  lemma TailIsAtOrBeyond(descending: bool, all: seq<Row>, size: nat, r: Row)
    requires 1 <= size < |all| && Sorted(descending, all) && r in all[size..]
    ensures BeyondKey(descending, KeyOf(all[size - 1]))(r) <==> !AtKey(KeyOf(all[size - 1]))(r)
  {
  }

  lemma TailOfPage(descending: bool, all: seq<Row>, size: nat)
    requires 1 <= size < |all| && Sorted(descending, all)
    ensures var cut := KeyOf(all[size - 1]);
            && Only(BeyondKey(descending, cut), all) == Only(BeyondKey(descending, cut), all[size..])
            && multiset(Only(BeyondKey(descending, cut), all[size..])) + multiset(Only(AtKey(cut), all[size..])) == multiset(all[size..])
            && |Only(BeyondKey(descending, cut), all[size..])| + Skipped(size, all) == |all| - size
  {
    HeadIsNotBeyond(descending, all, size, BeyondKey(descending, KeyOf(all[size - 1])));
    forall r | r in all[size..]
      ensures BeyondKey(descending, KeyOf(all[size - 1]))(r) <==> !AtKey(KeyOf(all[size - 1]))(r)
    {
      TailIsAtOrBeyond(descending, all, size, r);
    }
    OnlySplits(BeyondKey(descending, KeyOf(all[size - 1])), AtKey(KeyOf(all[size - 1])), all[size..]);
  }

  /** A page break leaves nothing out exactly when it does not fall between two rows of one key. */
  lemma BreakIsClean(descending: bool, all: seq<Row>, size: nat)
    requires 1 <= size < |all| && Sorted(descending, all)
    ensures Skipped(size, all) == 0 <==> KeyOf(all[size - 1]) != KeyOf(all[size])
  {
    var cut, tail := KeyOf(all[size - 1]), all[size..];
    if KeyOf(all[size]) != cut {
      forall r | r in tail
        ensures !AtKey(cut)(r)
      {
        var i :| 0 <= i < |tail| && tail[i] == r;
        assert all[size + i] == r;
        assert !Beyond(descending, KeyOf(all[size - 1]), KeyOf(all[size]));
        if i > 0 {
          assert !Beyond(descending, KeyOf(all[size]), KeyOf(all[size + i]));
        }
      }
      OnlyNone(AtKey(cut), tail);
    } else {
      assert tail[0] == all[size];
      OnlyCounts(AtKey(cut), tail, tail[0]);
      assert multiset(tail)[tail[0]] > 0;
    }
  }

  /** What is left past a page is what followed it, less what the break left out. */
  lemma RemainingRows(p: Row -> bool, table: seq<Row>, descending: bool, size: nat, after: Option<Key>, all: seq<Row>)
    requires 1 <= size < |all| && Sorted(descending, all)
    requires multiset(all) == multiset(Only(Past(p, descending, after), table))
    ensures var cut := KeyOf(all[size - 1]);
            var rest := Only(Past(p, descending, Some(cut)), table);
            && multiset(rest) + multiset(Only(AtKey(cut), all[size..])) == multiset(all[size..])
            && |rest| + Skipped(size, all) == |all| - size
            && (after.Some? ==> Beyond(descending, cut, after.value))
  {
    var cut, kept := KeyOf(all[size - 1]), Only(Past(p, descending, after), table);
    assert all[size - 1] in multiset(all);
    assert all[size - 1] in kept;
    OnlyOfOnly(p, descending, after, cut, table);
    OnlyOfSameBag(BeyondKey(descending, cut), all, kept);
    TailOfPage(descending, all, size);
  }

  // ---------------------------------------------------------------- walks

  /** Pages asked for one after the other, each with the cursor the last one ended at, until there
      is no next page; `alls` are the rows each one was cut from. */
  ghost predicate Walk(p: Row -> bool, table: seq<Row>, descending: bool, size: nat, cursor: Option<string>, pages: seq<Page>, alls: seq<seq<Row>>)
    requires size >= 1
    decreases |pages|
  {
    && |pages| == |alls| && pages != []
    && AfterOf(cursor).Ok? && PageOf(p, table, descending, size, AfterOf(cursor).value, pages[0], alls[0])
    && (if pages[0].hasNext then Walk(p, table, descending, size, pages[0].endCursor, pages[1..], alls[1..]) else |pages| == 1)
  }

  function Visited(pages: seq<Page>): seq<Row> {
    if pages == [] then [] else pages[0].items + Visited(pages[1..])
  }

  ghost function SkippedInAll(size: nat, alls: seq<seq<Row>>): nat
    requires size >= 1
  {
    if alls == [] then 0 else Skipped(size, alls[0]) + SkippedInAll(size, alls[1..])
  }

  /** No page break of the walk falls between two rows with the same position. */
  ghost predicate CleanBreaks(size: nat, alls: seq<seq<Row>>)
    requires size >= 1
  {
    alls != [] ==>
      && (|alls[0]| > size ==> KeyOf(alls[0][size - 1]) != KeyOf(alls[0][size]))
      && CleanBreaks(size, alls[1..])
  }

  lemma NextCursor(p: Row -> bool, table: seq<Row>, descending: bool, size: nat, after: Option<Key>, page: Page, all: seq<Row>)
    requires size >= 1 && PageOf(p, table, descending, size, after, page, all) && page.hasNext
    ensures AfterOf(page.endCursor) == Ok(Some(KeyOf(all[size - 1])))
  {
    CursorRoundTrip(KeyOf(all[size - 1]));
  }

  /** Walking ends: there are no more pages than rows, or one. */
  lemma {:induction false} WalkEnds(p: Row -> bool, table: seq<Row>, descending: bool, size: nat, cursor: Option<string>, pages: seq<Page>, alls: seq<seq<Row>>)
    requires size >= 1 && Walk(p, table, descending, size, cursor, pages, alls)
    ensures |pages| <= |Only(Past(p, descending, AfterOf(cursor).value), table)| + 1
    ensures |Visited(pages)| + SkippedInAll(size, alls) == |Only(Past(p, descending, AfterOf(cursor).value), table)|
    decreases |pages|
  {
    var after := AfterOf(cursor).value;
    var all, rest := alls[0], Only(Past(p, descending, after), table);
    SizeOfBag(all);
    SizeOfBag(rest);
    if pages[0].hasNext {
      NextCursor(p, table, descending, size, after, pages[0], all);
      RemainingRows(p, table, descending, size, after, all);
      WalkEnds(p, table, descending, size, pages[0].endCursor, pages[1..], alls[1..]);
    } else {
      assert pages[1..] == [] && alls[1..] == [];
    }
  }

  lemma {:induction false} CleanMeansNoneSkipped(p: Row -> bool, table: seq<Row>, descending: bool, size: nat, cursor: Option<string>, pages: seq<Page>, alls: seq<seq<Row>>)
    requires size >= 1 && Walk(p, table, descending, size, cursor, pages, alls)
    ensures SkippedInAll(size, alls) == 0 <==> CleanBreaks(size, alls)
    decreases |pages|
  {
    if pages[0].hasNext {
      BreakIsClean(descending, alls[0], size);
      CleanMeansNoneSkipped(p, table, descending, size, pages[0].endCursor, pages[1..], alls[1..]);
    } else {
      assert alls[1..] == [];
    }
  }

  lemma BagsAdd(a: seq<Row>, b: seq<Row>, more: seq<Row>)
    requires multiset(more) <= multiset(b)
    ensures multiset(a + more) <= multiset(a + b)
  {
  }

  lemma OnePageMore(p: Row -> bool, table: seq<Row>, descending: bool, size: nat, after: Option<Key>, all: seq<Row>, more: seq<Row>)
    requires 1 <= size < |all| && Sorted(descending, all) && Sorted(descending, more)
    requires multiset(all) == multiset(Only(Past(p, descending, after), table))
    requires multiset(more) <= multiset(Only(Past(p, descending, Some(KeyOf(all[size - 1]))), table))
    ensures Sorted(descending, all[..size] + more)
    ensures multiset(all[..size] + more) <= multiset(all)
  {
    var head, tail := all[..size], all[size..];
    assert all == head + tail && head[|head| - 1] == all[size - 1];
    RemainingRows(p, table, descending, size, after, all);
    BagsAdd(head, tail, more);
    LaterPagesAreBeyond(p, table, descending, Some(KeyOf(all[size - 1])), more);
    SortedHead(descending, all, size);
    JoinSorted(descending, head, more);
  }

  lemma SortedHead(descending: bool, all: seq<Row>, size: nat)
    requires size <= |all| && Sorted(descending, all)
    ensures Sorted(descending, all[..size])
  {
  }

  /** What a walk visits is in order, past its cursor, and part of what passes. */
  lemma {:induction false} WalkIsOrdered(p: Row -> bool, table: seq<Row>, descending: bool, size: nat, cursor: Option<string>, pages: seq<Page>, alls: seq<seq<Row>>)
    requires size >= 1 && Walk(p, table, descending, size, cursor, pages, alls)
    ensures Sorted(descending, Visited(pages))
    ensures multiset(Visited(pages)) <= multiset(Only(Past(p, descending, AfterOf(cursor).value), table))
    decreases |pages|
  {
    if pages[0].hasNext {
      NextCursor(p, table, descending, size, AfterOf(cursor).value, pages[0], alls[0]);
      WalkIsOrdered(p, table, descending, size, pages[0].endCursor, pages[1..], alls[1..]);
      OnePageMore(p, table, descending, size, AfterOf(cursor).value, alls[0], Visited(pages[1..]));
    } else {
      assert Visited(pages[1..]) == [];
      assert Visited(pages) == alls[0];
    }
  }

  lemma LaterPagesAreBeyond(p: Row -> bool, table: seq<Row>, descending: bool, after: Option<Key>, more: seq<Row>)
    requires multiset(more) <= multiset(Only(Past(p, descending, after), table))
    ensures forall r :: r in more ==> Past(p, descending, after)(r)
  {
    var rest := Only(Past(p, descending, after), table);
    forall r | r in more
      ensures r in rest
    {
      assert multiset(more)[r] > 0;
      assert multiset(rest)[r] > 0;
    }
  }

  lemma JoinSorted(descending: bool, a: seq<Row>, b: seq<Row>)
    requires a != [] && Sorted(descending, a) && Sorted(descending, b)
    requires forall r :: r in b ==> Beyond(descending, KeyOf(r), KeyOf(a[|a| - 1]))
    ensures Sorted(descending, a + b)
  {
  }

  lemma SmallerBag(a: multiset<Row>, b: multiset<Row>)
    requires a <= b && |a| == |b|
    ensures a == b
  {
    assert b == a + (b - a);
  }

  /** A walk from the beginning has at most one page more than there are matching rows and is in
      order; it visits every matching row exactly as often as it is stored, and so as many rows as
      the count says, exactly when no page break falls between two rows with the same position. */
  lemma WalkIsComplete(cols: Columns, filters: seq<Filter>, table: seq<Row>, descending: bool, first: nat, pages: seq<Page>, alls: seq<seq<Row>>)
    requires Filterable(cols, filters)
    requires Walk(PassesAll(cols, filters), table, descending, PageSize(first), None, pages, alls)
    ensures var matching := Only(PassesAll(cols, filters), table);
            && |pages| <= |matching| + 1
            && ByPosition(descending, Visited(pages))
            && (multiset(Visited(pages)) == multiset(matching) <==> CleanBreaks(PageSize(first), alls))
            && (|Visited(pages)| == |matching| <==> CleanBreaks(PageSize(first), alls))
  {
    var p, size := PassesAll(cols, filters), PageSize(first);
    OnlyAgrees(Past(p, descending, None), p, table);
    WalkEnds(p, table, descending, size, None, pages, alls);
    WalkIsOrdered(p, table, descending, size, None, pages, alls);
    SortedMeans(descending, Visited(pages));
    CleanMeansNoneSkipped(p, table, descending, size, None, pages, alls);
    var matching := Only(p, table);
    SizeOfBag(Visited(pages));
    SizeOfBag(matching);
    if |Visited(pages)| == |matching| {
      SmallerBag(multiset(Visited(pages)), multiset(matching));
    }
  }

  /** Past a page with a next one there are fewer rows left. */
  lemma LessRemains(p: Row -> bool, table: seq<Row>, descending: bool, size: nat, after: Option<Key>, page: Page, all: seq<Row>)
    requires size >= 1 && PageOf(p, table, descending, size, after, page, all) && page.hasNext
    ensures AfterOf(page.endCursor).Ok?
    ensures |Only(Past(p, descending, AfterOf(page.endCursor).value), table)| < |Only(Past(p, descending, after), table)|
  {
    NextCursor(p, table, descending, size, after, page, all);
    RemainingRows(p, table, descending, size, after, all);
    SizeOfBag(all);
    SizeOfBag(Only(Past(p, descending, after), table));
  }

  /** Walks: asks for page after page, each past the one before, until there is no next page. What
      is left past the cursor shrinks with every page, so it ends. */
  method WalkFrom(table: seq<Row>, cols: Columns, filters: seq<Filter>, descending: bool, first: nat, cursor: Option<string>)
    returns (pages: seq<Page>, ghost alls: seq<seq<Row>>)
    requires Filterable(cols, filters) && AfterOf(cursor).Ok?
    ensures Walk(PassesAll(cols, filters), table, descending, PageSize(first), cursor, pages, alls)
    decreases |Only(Past(PassesAll(cols, filters), descending, AfterOf(cursor).value), table)|
  {
    var r, all := Query(table, cols, QuerySpec(filters, first, cursor, descending));
    var page := r.value;
    if !page.hasNext {
      return [page], [all];
    }
    ghost var p, size, after := PassesAll(cols, filters), PageSize(first), AfterOf(cursor).value;
    LessRemains(p, table, descending, size, after, page, all);
    var more, rest := WalkFrom(table, cols, filters, descending, first, page.endCursor);
    pages, alls := [page] + more, [all] + rest;
  }

  /** The rows in the order of the walk. */
  function Arranged(descending: bool, rows: seq<Row>): seq<Row> {
    if rows == [] then [] else Place(descending, Arranged(descending, rows[..|rows| - 1]), rows[|rows| - 1])
  }

  lemma {:induction false} ArrangedSorts(descending: bool, rows: seq<Row>)
    ensures Sorted(descending, Arranged(descending, rows)) && multiset(Arranged(descending, rows)) == multiset(rows)
  {
    if rows != [] {
      var front, last := rows[..|rows| - 1], rows[|rows| - 1];
      ArrangedSorts(descending, front);
      PlaceSorts(descending, Arranged(descending, front), last);
      PlaceKeeps(descending, Arranged(descending, front), last);
      assert rows == front + [last];
    }
  }

  /** There is a walk from every cursor that parses. */
  lemma {:induction false} WalkExists(p: Row -> bool, table: seq<Row>, descending: bool, size: nat, cursor: Option<string>)
    returns (pages: seq<Page>, alls: seq<seq<Row>>)
    requires size >= 1 && AfterOf(cursor).Ok?
    ensures Walk(p, table, descending, size, cursor, pages, alls)
    decreases |Only(Past(p, descending, AfterOf(cursor).value), table)|
  {
    var after := AfterOf(cursor).value;
    var rest := Only(Past(p, descending, after), table);
    var all := Arranged(descending, rest);
    ArrangedSorts(descending, rest);
    SizeOfBag(all);
    SizeOfBag(rest);
    if |all| <= size {
      return [Page(all, None, false)], [all];
    }
    var page := Page(all[..size], Some(FormatCursor(KeyOf(all[size - 1]))), true);
    NextCursor(p, table, descending, size, after, page, all);
    RemainingRows(p, table, descending, size, after, all);
    var more, others := WalkExists(p, table, descending, size, page.endCursor);
    pages, alls := [page] + more, [all] + others;
  }

  // ---------------------------------------------------------------- unique positions

  /** No two stored rows that match share a position. */
  ghost predicate UniquePositions(rows: seq<Row>) {
    forall i, j :: 0 <= i < j < |rows| ==> KeyOf(rows[i]) != KeyOf(rows[j])
  }

  lemma {:induction false} AtMostOneAtKey(rows: seq<Row>, k: Key)
    requires UniquePositions(rows)
    ensures |Only(AtKey(k), rows)| <= 1
  {
    if rows != [] {
      var front, last := rows[..|rows| - 1], rows[|rows| - 1];
      if KeyOf(last) == k {
        OnlyNone(AtKey(k), front);
      } else {
        AtMostOneAtKey(front, k);
      }
    }
  }

  lemma {:induction false} OnlyTwice(p: Row -> bool, q: Row -> bool, rows: seq<Row>)
    ensures |Only(q, Only(p, rows))| <= |Only(q, rows)|
  {
    if rows != [] {
      var front, last := rows[..|rows| - 1], rows[|rows| - 1];
      OnlyTwice(p, q, front);
      if p(last) {
        var kept := Only(p, front) + [last];
        assert kept[..|kept| - 1] == Only(p, front);
      }
    }
  }

  lemma {:induction false} OneAtKey(rows: seq<Row>, i: nat)
    requires i < |rows|
    ensures |Only(AtKey(KeyOf(rows[i])), rows)| >= 1
  {
    if i < |rows| - 1 {
      OneAtKey(rows[..|rows| - 1], i);
    }
  }

  lemma {:induction false} TwoAtKey(rows: seq<Row>, i: nat, j: nat)
    requires i < j < |rows| && KeyOf(rows[i]) == KeyOf(rows[j])
    ensures |Only(AtKey(KeyOf(rows[j])), rows)| >= 2
  {
    if j < |rows| - 1 {
      TwoAtKey(rows[..|rows| - 1], i, j);
    } else {
      OneAtKey(rows[..|rows| - 1], i);
    }
  }

  lemma AtMostOnePast(p: Row -> bool, table: seq<Row>, descending: bool, after: Option<Key>, k: Key)
    requires UniquePositions(Only(p, table))
    ensures |Only(AtKey(k), Only(Past(p, descending, after), table))| <= 1
  {
    PastIsOnlyOfOnly(p, table, descending, after);
    AtMostOneAtKey(Only(p, table), k);
    OnlyTwice(FromKey(descending, after), AtKey(k), Only(p, table));
  }

  lemma UniqueBreak(rows: seq<Row>, size: nat, all: seq<Row>)
    requires 1 <= size < |all| && multiset(all) == multiset(rows) && |Only(AtKey(KeyOf(all[size])), rows)| <= 1
    ensures KeyOf(all[size - 1]) != KeyOf(all[size])
  {
    OnlyOfSameBag(AtKey(KeyOf(all[size])), all, rows);
    if KeyOf(all[size - 1]) == KeyOf(all[size]) {
      TwoAtKey(all, size - 1, size);
    }
  }

  lemma {:induction false} UniqueBreaksClean(p: Row -> bool, table: seq<Row>, descending: bool, size: nat, cursor: Option<string>, pages: seq<Page>, alls: seq<seq<Row>>)
    requires size >= 1 && Walk(p, table, descending, size, cursor, pages, alls) && UniquePositions(Only(p, table))
    ensures CleanBreaks(size, alls)
    decreases |pages|
  {
    if pages[0].hasNext {
      AtMostOnePast(p, table, descending, AfterOf(cursor).value, KeyOf(alls[0][size]));
      UniqueBreak(Only(Past(p, descending, AfterOf(cursor).value), table), size, alls[0]);
      UniqueBreaksClean(p, table, descending, size, pages[0].endCursor, pages[1..], alls[1..]);
    } else {
      assert alls[1..] == [];
    }
  }

  function FromKey(descending: bool, after: Option<Key>): Row -> bool {
    (r: Row) => after.Some? ==> Beyond(descending, KeyOf(r), after.value)
  }

  lemma {:induction false} PastIsOnlyOfOnly(p: Row -> bool, table: seq<Row>, descending: bool, after: Option<Key>)
    ensures Only(Past(p, descending, after), table) == Only(FromKey(descending, after), Only(p, table))
  {
    if table != [] {
      var front, last := table[..|table| - 1], table[|table| - 1];
      PastIsOnlyOfOnly(p, front, descending, after);
      if p(last) {
        var kept := Only(p, front) + [last];
        assert kept[..|kept| - 1] == Only(p, front);
      }
    }
  }

  ghost predicate KeysDecide(rows: seq<Row>) {
    forall i, j :: 0 <= i < |rows| && 0 <= j < |rows| && KeyOf(rows[i]) == KeyOf(rows[j]) ==> rows[i] == rows[j]
  }

  lemma ButLast(descending: bool, a: seq<Row>)
    requires a != [] && Sorted(descending, a)
    ensures Sorted(descending, a[..|a| - 1]) && (KeysDecide(a) ==> KeysDecide(a[..|a| - 1]))
    ensures a == a[..|a| - 1] + [a[|a| - 1]]
  {
  }

  /** Two orderings of one bag with unique positions are the same sequence. */
  lemma {:induction false} OrderIsUnique(descending: bool, a: seq<Row>, b: seq<Row>)
    requires multiset(a) == multiset(b) && Sorted(descending, a) && Sorted(descending, b) && KeysDecide(a)
    ensures a == b
  {
    SizeOfBag(a);
    SizeOfBag(b);
    if a == [] {
      assert b == [];
    } else {
      LastIsLast(descending, a, b);
      BagLessLast(a);
      BagLessLast(b);
      ButLast(descending, a);
      ButLast(descending, b);
      OrderIsUnique(descending, a[..|a| - 1], b[..|b| - 1]);
    }
  }

  lemma BagLessLast(s: seq<Row>)
    requires s != []
    ensures multiset(s[..|s| - 1]) == multiset(s) - multiset{s[|s| - 1]}
  {
    assert s == s[..|s| - 1] + [s[|s| - 1]];
  }

  lemma LastIsLast(descending: bool, a: seq<Row>, b: seq<Row>)
    requires a != [] && |a| == |b| && multiset(a) == multiset(b) && Sorted(descending, a) && Sorted(descending, b)
    requires KeysDecide(a)
    ensures a[|a| - 1] == b[|a| - 1]
  {
    var n := |a| - 1;
    assert a[n] in multiset(b) && b[n] in multiset(a);
    var i :| 0 <= i <= n && a[i] == b[n];
    var j :| 0 <= j <= n && b[j] == a[n];
    assert i < n ==> !Beyond(descending, KeyOf(a[i]), KeyOf(a[n]));
    assert j < n ==> !Beyond(descending, KeyOf(b[j]), KeyOf(b[n]));
    assert KeyOf(a[n]) == KeyOf(b[n]);
  }

  /** With unique positions every walk, whatever the page size, is the matching rows in order. */
  lemma UniquePositionsWalk(cols: Columns, filters: seq<Filter>, table: seq<Row>, descending: bool, first: nat, pages: seq<Page>, alls: seq<seq<Row>>, ordered: seq<Row>)
    requires Filterable(cols, filters) && UniquePositions(Only(PassesAll(cols, filters), table))
    requires Walk(PassesAll(cols, filters), table, descending, PageSize(first), None, pages, alls)
    requires ByPosition(descending, ordered) && multiset(ordered) == multiset(Only(PassesAll(cols, filters), table))
    ensures Visited(pages) == ordered
    ensures |Visited(pages)| == |Only(PassesAll(cols, filters), table)|
  {
    var p, matching := PassesAll(cols, filters), Only(PassesAll(cols, filters), table);
    UniqueBreaksClean(p, table, descending, PageSize(first), None, pages, alls);
    WalkIsComplete(cols, filters, table, descending, first, pages, alls);
    forall i, j | 0 <= i < |ordered| && 0 <= j < |ordered| && KeyOf(ordered[i]) == KeyOf(ordered[j])
      ensures ordered[i] == ordered[j]
    {
      assert ordered[i] in multiset(ordered) && ordered[j] in multiset(ordered);
      assert ordered[i] in matching && ordered[j] in matching;
    }
    SortedMeans(descending, ordered);
    SortedMeans(descending, Visited(pages));
    OrderIsUnique(descending, ordered, Visited(pages));
  }

  /** Pages of one row never visit a position twice. */
  lemma {:induction false} SinglesAreUnique(p: Row -> bool, table: seq<Row>, descending: bool, cursor: Option<string>, pages: seq<Page>, alls: seq<seq<Row>>)
    requires Walk(p, table, descending, 1, cursor, pages, alls)
    ensures UniquePositions(Visited(pages))
    decreases |pages|
  {
    if pages[0].hasNext {
      NextCursor(p, table, descending, 1, AfterOf(cursor).value, pages[0], alls[0]);
      SinglesAreUnique(p, table, descending, pages[0].endCursor, pages[1..], alls[1..]);
      WalkIsOrdered(p, table, descending, 1, pages[0].endCursor, pages[1..], alls[1..]);
      SinglePage(p, table, descending, alls[0][0], Visited(pages[1..]));
      assert alls[0][..1] == [alls[0][0]];
    } else {
      assert Visited(pages[1..]) == [];
      assert Visited(pages) == alls[0];
    }
  }

  lemma SinglePage(p: Row -> bool, table: seq<Row>, descending: bool, x: Row, more: seq<Row>)
    requires UniquePositions(more) && multiset(more) <= multiset(Only(Past(p, descending, Some(KeyOf(x))), table))
    ensures UniquePositions([x] + more)
  {
    LaterPagesAreBeyond(p, table, descending, Some(KeyOf(x)), more);
    FirstIsApart(descending, x, more);
  }

  lemma FirstIsApart(descending: bool, x: Row, more: seq<Row>)
    requires UniquePositions(more) && forall r :: r in more ==> Beyond(descending, KeyOf(r), KeyOf(x))
    ensures UniquePositions([x] + more)
  {
    var all := [x] + more;
    forall i, j | 0 <= i < j < |all|
      ensures KeyOf(all[i]) != KeyOf(all[j])
    {
      assert all[j] == more[j - 1] && all[j] in more;
      assert i > 0 ==> all[i] == more[i - 1];
    }
  }

  lemma UniqueInOtherOrder(a: seq<Row>, b: seq<Row>)
    requires UniquePositions(a) && multiset(a) == multiset(b)
    ensures UniquePositions(b)
  {
    forall i, j | 0 <= i < j < |b|
      ensures KeyOf(b[i]) != KeyOf(b[j])
    {
      if KeyOf(b[i]) == KeyOf(b[j]) {
        TwoAtKey(b, i, j);
        AtMostOneAtKey(a, KeyOf(b[j]));
        OnlyOfSameBag(AtKey(KeyOf(b[j])), a, b);
      }
    }
  }

  /** The walk visits every matching row exactly as often as it is stored. */
  ghost predicate WalksEverything(cols: Columns, filters: seq<Filter>, table: seq<Row>, descending: bool, first: nat)
    requires Filterable(cols, filters)
  {
    forall pages, alls :: Walk(PassesAll(cols, filters), table, descending, PageSize(first), None, pages, alls) ==>
      multiset(Visited(pages)) == multiset(Only(PassesAll(cols, filters), table))
  }

  /** Positions of the matching rows are unique exactly when pages of one row miss nothing, and then
      pages of any size miss nothing. */
  lemma UniqueExactlyWhenComplete(cols: Columns, filters: seq<Filter>, table: seq<Row>, descending: bool)
    requires Filterable(cols, filters)
    ensures UniquePositions(Only(PassesAll(cols, filters), table)) <==> WalksEverything(cols, filters, table, descending, 1)
    ensures UniquePositions(Only(PassesAll(cols, filters), table)) <==>
            forall first :: WalksEverything(cols, filters, table, descending, first)
  {
    var p, matching := PassesAll(cols, filters), Only(PassesAll(cols, filters), table);
    if UniquePositions(matching) {
      forall first, pages, alls | Walk(p, table, descending, PageSize(first), None, pages, alls)
        ensures multiset(Visited(pages)) == multiset(matching)
      {
        UniqueBreaksClean(p, table, descending, PageSize(first), None, pages, alls);
        WalkIsComplete(cols, filters, table, descending, first, pages, alls);
      }
      assert forall first :: WalksEverything(cols, filters, table, descending, first);
    }
    if WalksEverything(cols, filters, table, descending, 1) {
      var pages, alls := WalkExists(p, table, descending, PageSize(1), None);
      SinglesAreUnique(p, table, descending, None, pages, alls);
      UniqueInOtherOrder(Visited(pages), matching);
    }
  }

  function Anything(): Row -> bool {
    (r: Row) => true
  }

  lemma PairPasses(a: Row, b: Row)
    ensures Only(Anything(), [a, b]) == [a, b]
  {
  }

  lemma PairPage(a: Row, b: Row, descending: bool)
    requires KeyOf(a) == KeyOf(b)
    ensures PageOf(Anything(), [a, b], descending, 1, None, Page([a], Some(FormatCursor(KeyOf(a))), true), [a, b])
  {
    OnlyAgrees(Past(Anything(), descending, None), Anything(), [a, b]);
    PairPasses(a, b);
    assert [a, b][..1] == [a];
  }

  lemma NothingPastPair(a: Row, b: Row, descending: bool)
    requires KeyOf(a) == KeyOf(b)
    ensures PageOf(Anything(), [a, b], descending, 1, Some(KeyOf(a)), Page([], None, false), [])
  {
    forall r | r in [a, b]
      ensures !Past(Anything(), descending, Some(KeyOf(a)))(r)
    {
      assert r == a || r == b;
      assert !Beyond(descending, KeyOf(r), KeyOf(a));
    }
    OnlyNone(Past(Anything(), descending, Some(KeyOf(a))), [a, b]);
  }

  lemma PairWalkEnds(a: Row, b: Row, descending: bool, cursor: Option<string>, last: Page)
    requires KeyOf(a) == KeyOf(b) && cursor == Some(FormatCursor(KeyOf(a))) && last == Page([], None, false)
    ensures Walk(Anything(), [a, b], descending, 1, cursor, [last], [[]])
  {
    NothingPastPair(a, b, descending);
    CursorRoundTrip(KeyOf(a));
  }

  /** Two rows at one position, as one table holds for two chains: with pages of one row, the walk
      ends after the first of them. */
  lemma SharedPositionIsSkipped(a: Row, b: Row, descending: bool)
    requires KeyOf(a) == KeyOf(b)
    ensures var pages := [Page([a], Some(FormatCursor(KeyOf(a))), true), Page([], None, false)];
            Walk(Anything(), [a, b], descending, 1, None, pages, [[a, b], []]) && Visited(pages) == [a]
  {
    var front, last := Page([a], Some(FormatCursor(KeyOf(a))), true), Page([], None, false);
    var pages, alls := [front, last], [[a, b], []];
    PairPage(a, b, descending);
    PairWalkEnds(a, b, descending, front.endCursor, last);
    assert pages[1..] == [last] && alls[1..] == [[]];
    assert [last][1..] == [];
    assert Visited([last]) == [];
  }
}
