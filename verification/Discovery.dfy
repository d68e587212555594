/** The Postgres pool-discovery cursors (src/infra/pg.rs) and the two loops that drain them
    (src/services/state_refresh.rs).

    The table is static, with unique non-empty ids.  A SQL query is a filter followed by
    ORDER BY and LIMIT; where two rows tie on the sort key either order may come back.  Ids
    compare byte-wise both in SQL and in the client. */
module Discovery {

  import opened Prelude

  const I32_MAX: int := 0x7fff_ffff
  const I64_MAX: int := 0x7fff_ffff_ffff_ffff

  datatype FetchError = NotBootstrapped | BlockOverflow | LimitOverflow

  datatype Result<T> = Ok(value: T) | Err(error: FetchError)

  // ---------------------------------------------------------------- keys and their order

  /** Byte-wise order of ids. */
  predicate Before(a: string, b: string) {
    if b == "" then false
    else if a == "" then true
    else a[0] < b[0] || (a[0] == b[0] && Before(a[1..], b[1..]))
  }

  /** What the order is: the first position in which the ids differ decides, and a proper prefix comes first. */
  lemma {:induction false} BeforeIsBytewise(a: string, b: string)
    ensures Before(a, b) <==>
      exists n :: 0 <= n <= |a| && n < |b| && a[..n] == b[..n] && (n == |a| || a[n] < b[n])
  {
    if a == "" || b == "" {
      assert a[..0] == b[..0];
    } else {
      BeforeIsBytewise(a[1..], b[1..]);
      assert a == [a[0]] + a[1..] && b == [b[0]] + b[1..];
      if Before(a, b) {
        if a[0] < b[0] {
          assert a[..0] == b[..0];
        } else {
          var n :| 0 <= n <= |a[1..]| && n < |b[1..]| && a[1..][..n] == b[1..][..n] && (n == |a[1..]| || a[1..][n] < b[1..][n]);
          assert a[..n + 1] == [a[0]] + a[1..][..n] && b[..n + 1] == [b[0]] + b[1..][..n];
        }
      }
      if n :| 0 <= n <= |a| && n < |b| && a[..n] == b[..n] && (n == |a| || a[n] < b[n]) {
        if n > 0 {
          assert a[..n][0] == b[..n][0];
          assert a[1..][..n - 1] == a[..n][1..] && b[1..][..n - 1] == b[..n][1..];
        }
      }
    }
  }

  lemma {:induction false} BeforeIrreflexive(a: string)
    ensures !Before(a, a)
  {
    if a == "" {
    } else {
      BeforeIrreflexive(a[1..]);
    }
  }

  lemma {:induction false} BeforeTransitive(a: string, b: string, c: string)
    requires Before(a, b) && Before(b, c)
    ensures Before(a, c)
  {
    if a != "" && a[0] == b[0] && b[0] == c[0] {
      BeforeTransitive(a[1..], b[1..], c[1..]);
    }
  }

  lemma {:induction false} BeforeTotal(a: string, b: string)
    ensures Before(a, b) || Before(b, a) || a == b
  {
    if a != "" && b != "" && a[0] == b[0] {
      BeforeTotal(a[1..], b[1..]);
      assert a == [a[0]] + a[1..] && b == [b[0]] + b[1..];
    }
  }

  lemma {:induction false} PrefixBefore(a: string, b: string)
    requires a < b
    ensures Before(a, b)
  {
    if a == "" {
    } else {
      assert a[1..] < b[1..];
      PrefixBefore(a[1..], b[1..]);
    }
  }

  datatype Key = Key(block: int, id: string)

  /** SQL row comparison `(block, id) < (block', id')`. */
  predicate Less(a: Key, b: Key) {
    a.block < b.block || (a.block == b.block && Before(a.id, b.id))
  }

  lemma LessOrder()
    ensures forall a :: !Less(a, a)
    ensures forall a, b, c :: Less(a, b) && Less(b, c) ==> Less(a, c)
    ensures forall a, b :: Less(a, b) || Less(b, a) || a == b
  {
    forall a
      ensures !Less(a, a)
    {
      BeforeIrreflexive(a.id);
    }
    forall a, b, c | Less(a, b) && Less(b, c)
      ensures Less(a, c)
    {
      if a.block == b.block == c.block {
        BeforeTransitive(a.id, b.id, c.id);
      }
    }
    forall a, b
      ensures Less(a, b) || Less(b, a) || a == b
    {
      BeforeTotal(a.id, b.id);
    }
  }

  // ---------------------------------------------------------------- the table and its queries

  /** `valid` is the validity clause of the SQL, `parses` the client-side `parse_pg_row`. */
  datatype Row = Row(id: string, createdBlock: int, updatedAtBlock: Option<int>, valid: bool, parses: bool)

  type Table = set<Row>

  predicate TableOk(t: Table) {
    && (forall r, q :: r in t && q in t && r.id == q.id ==> r == q)
    && (forall r :: r in t ==>
          && r.id != "" && r.createdBlock <= I32_MAX
          && (r.updatedAtBlock.Some? ==> r.updatedAtBlock.value <= I32_MAX))
  }

  /** A result row: from the created stream, or from the updated stream of the union. */
  datatype Item = Created(row: Row) | Updated(row: Row)

  function CreatedKey(r: Row): Key { Key(r.createdBlock, r.id) }

  function UpdatedKey(r: Row): Key {
    Key(if r.updatedAtBlock.Some? then r.updatedAtBlock.value else 0, r.id)
  }

  function SortKey(x: Item): Key {
    match x
    case Created(r) => CreatedKey(r)
    case Updated(r) => UpdatedKey(r)
  }

  /** WHERE (createdBlock, id) > mark, valid rows. */
  function CreatedBeyond(t: Table, mark: Key): set<Item> {
    set r | r in t && r.valid && Less(mark, CreatedKey(r)) :: Created(r)
  }

  /** WHERE (updatedAtBlock, id) > mark AND createdBlock <= maxCreated, valid rows. */
  function UpdatedBeyond(t: Table, mark: Key, maxCreated: int): set<Item> {
    set r | r in t && r.valid && r.updatedAtBlock.Some? && Less(mark, UpdatedKey(r))
            && r.createdBlock <= maxCreated :: Updated(r)
  }

  /** ORDER BY sort key LIMIT limit, over the filtered rows `f`. */
  ghost predicate IsPage(f: set<Item>, limit: nat, page: seq<Item>) {
    && |page| <= limit
    && (forall i :: 0 <= i < |page| ==> page[i] in f)
    && (forall i, j :: 0 <= i < j < |page| ==> page[i] != page[j])
    && (forall i, j :: 0 <= i < j < |page| ==> !Less(SortKey(page[j]), SortKey(page[i])))
    && (|page| < limit ==> forall x :: x in f ==> x in page)
    && (forall x, i :: x in f && x !in page && 0 <= i < |page| ==> !Less(SortKey(x), SortKey(page[i])))
  }

  lemma LessTransposed(a: Key, b: Key, c: Key)
    ensures !Less(a, b) && Less(c, b) ==> !Less(a, c)
    ensures Less(a, b) ==> !Less(b, a)
    ensures !Less(a, a)
  {
    LessOrder();
  }

  lemma {:induction false} MinExists(f: set<Item>)
    requires f != {}
    ensures exists m :: m in f && forall y :: y in f ==> !Less(SortKey(y), SortKey(m))
  {
    var x :| x in f;
    var n := x;
    if f != {x} {
      MinExists(f - {x});
      var m :| m in f - {x} && forall y :: y in f - {x} ==> !Less(SortKey(y), SortKey(m));
      n := if Less(SortKey(x), SortKey(m)) then x else m;
      forall y | y in f
        ensures !Less(SortKey(y), SortKey(n))
      {
        LessTransposed(SortKey(y), SortKey(m), SortKey(x));
        assert y == x || y in f - {x};
      }
    } else {
      LessTransposed(SortKey(x), SortKey(x), SortKey(x));
    }
  }

  /** A database that answers the query, with ties in any order. */
  method RunQuery(f: set<Item>, limit: nat) returns (page: seq<Item>)
    ensures IsPage(f, limit, page)
  {
    page := [];
    var rest := f;
    while |page| < limit && rest != {}
      invariant |page| <= limit
      invariant rest <= f
      invariant forall x :: x in f ==> (x in rest <==> x !in page)
      invariant forall i :: 0 <= i < |page| ==> page[i] in f
      invariant forall i, j :: 0 <= i < j < |page| ==> page[i] != page[j]
      invariant forall i, j :: 0 <= i < j < |page| ==> !Less(SortKey(page[j]), SortKey(page[i]))
      invariant forall x, i :: x in rest && 0 <= i < |page| ==> !Less(SortKey(x), SortKey(page[i]))
      decreases rest
    {
      MinExists(rest);
      var m :| m in rest && forall y :: y in rest ==> !Less(SortKey(y), SortKey(m));
      page, rest := page + [m], rest - {m};
    }
  }

  function Rows(page: seq<Item>): (rows: seq<Row>)
    ensures |rows| == |page| && forall i :: 0 <= i < |page| ==> rows[i] == page[i].row
  {
    seq(|page|, i requires 0 <= i < |page| => page[i].row)
  }

  /** The pools a list of rows yields: the ones `parse_pg_row` accepts, in order. */
  function Parsed(rows: seq<Row>): seq<Row> {
    if rows == [] then []
    else
      var n := |rows| - 1;
      if rows[n].parses then Parsed(rows[..n]) + [rows[n]] else Parsed(rows[..n])
  }

  /** `parse_rows`. */
  method ParseRows(rows: seq<Row>) returns (pools: seq<Row>, rejected: nat)
    ensures pools == Parsed(rows) && |pools| + rejected == |rows|
  {
    pools, rejected := [], 0;
    for i := 0 to |rows|
      invariant pools == Parsed(rows[..i]) && |pools| + rejected == i
    {
      assert rows[..i + 1][..i] == rows[..i];
      if rows[i].parses {
        pools := pools + [rows[i]];
      } else {
        rejected := rejected + 1;
      }
    }
    assert rows[..|rows|] == rows;
  }

  // ---------------------------------------------------------------- the keyset pager

  datatype KeysetPage = KeysetPage(rows: seq<Row>, pools: seq<Row>, next: Key, hasMore: bool)

  /** What `fetch_pool_meta_page` promises: the next `limit` valid rows beyond `after`, in key
      order; `next` is where they end. */
  ghost predicate IsKeysetPage(t: Table, after: Key, limit: nat, p: KeysetPage) {
    && InKeyOrder(p.rows)
    && (p.rows == [] ==> p.next == after)
    && (p.rows != [] ==> p.next == CreatedKey(p.rows[|p.rows| - 1]))
    && (forall r :: r in p.rows <==> r in t && r.valid && Less(after, CreatedKey(r)) && !Less(p.next, CreatedKey(r)))
    && p.pools == Parsed(p.rows)
    && (p.hasMore <==> |p.rows| == limit)
    && (!p.hasMore ==> forall r :: r in t && r.valid ==> !Less(p.next, CreatedKey(r)))
  }

  ghost predicate InKeyOrder(rows: seq<Row>) {
    forall i, j :: 0 <= i < j < |rows| ==> Less(CreatedKey(rows[i]), CreatedKey(rows[j]))
  }

  /** What a created page leaves behind lies beyond its last row. */
  lemma KeysetRest(t: Table, after: Key, limit: nat, page: seq<Item>, next: Key, r: Row)
    requires IsPage(CreatedBeyond(t, after), limit, page)
    requires next == if page == [] then after else SortKey(page[|page| - 1])
    requires TableOk(t) && r in t && r.valid && Less(after, CreatedKey(r)) && Created(r) !in page
    ensures Less(next, CreatedKey(r)) && |page| == limit
  {
    LessOrder();
    assert Created(r) in CreatedBeyond(t, after);
    if page != [] {
      var last := page[|page| - 1];
      assert last in CreatedBeyond(t, after);
      assert !Less(SortKey(Created(r)), SortKey(last)) && last != Created(r);
    }
  }

  lemma KeysetAscends(t: Table, after: Key, limit: nat, page: seq<Item>, rows: seq<Row>)
    requires TableOk(t) && IsPage(CreatedBeyond(t, after), limit, page) && rows == Rows(page)
    ensures InKeyOrder(rows)
    ensures forall i :: 0 <= i < |page| ==> page[i] == Created(rows[i])
  {
    LessOrder();
    assert forall i :: 0 <= i < |page| ==> page[i] in CreatedBeyond(t, after) && page[i] == Created(rows[i]) && rows[i] in t;
    forall i, j | 0 <= i < j < |rows|
      ensures Less(CreatedKey(rows[i]), CreatedKey(rows[j]))
    {
      assert !Less(SortKey(page[j]), SortKey(page[i])) && page[i] != page[j];
    }
  }

  lemma KeysetCut(t: Table, after: Key, limit: nat, page: seq<Item>, rows: seq<Row>, next: Key)
    requires TableOk(t) && IsPage(CreatedBeyond(t, after), limit, page) && rows == Rows(page)
    requires next == if page == [] then after else SortKey(page[|page| - 1])
    ensures InKeyOrder(rows)
    ensures forall r :: r in rows <==> r in t && r.valid && Less(after, CreatedKey(r)) && !Less(next, CreatedKey(r))
    ensures |rows| < limit ==> forall r :: r in t && r.valid ==> !Less(next, CreatedKey(r))
  {
    LessOrder();
    KeysetAscends(t, after, limit, page, rows);
    forall r | r in rows
      ensures r in t && r.valid && Less(after, CreatedKey(r)) && !Less(next, CreatedKey(r))
    {
      var i :| 0 <= i < |rows| && rows[i] == r;
      assert page[i] in CreatedBeyond(t, after);
    }
    forall r | r in t && r.valid && Less(after, CreatedKey(r)) && r !in rows
      ensures Less(next, CreatedKey(r)) && |rows| == limit
    {
      assert Created(r) !in page;
      KeysetRest(t, after, limit, page, next, r);
    }
  }

  method FetchPoolMetaPage(t: Table, after: Key, limit: nat) returns (r: Result<KeysetPage>)
    requires TableOk(t)
    ensures r.Err? <==> limit > I64_MAX
    ensures r.Err? ==> r.error == LimitOverflow
    ensures r.Ok? ==> IsKeysetPage(t, after, limit, r.value)
  {
    if limit > I64_MAX {
      return Err(LimitOverflow);
    }
    var page := RunQuery(CreatedBeyond(t, after), limit);
    var rows := Rows(page);
    var pools, _ := ParseRows(rows);
    var next := if rows == [] then after else CreatedKey(rows[|rows| - 1]);
    KeysetCut(t, after, limit, page, rows, next);
    return Ok(KeysetPage(rows, pools, next, |rows| == limit));
  }

  lemma AscendingConcat(a: seq<Row>, b: seq<Row>, mark: Key)
    requires InKeyOrder(a) && InKeyOrder(b)
    requires forall r :: r in a ==> !Less(mark, CreatedKey(r))
    requires forall r :: r in b ==> Less(mark, CreatedKey(r))
    ensures InKeyOrder(a + b)
  {
    LessOrder();
    forall i, j | 0 <= i < j < |a + b|
      ensures Less(CreatedKey((a + b)[i]), CreatedKey((a + b)[j]))
    {
      if i < |a| <= j {
        assert a[i] in a && b[j - |a|] in b;
      }
    }
  }

  lemma {:induction false} ParsedConcat(a: seq<Row>, b: seq<Row>)
    ensures Parsed(a + b) == Parsed(a) + Parsed(b)
  {
    if b == [] {
      assert a + b == a;
    } else {
      var n := |b| - 1;
      assert (a + b)[..|a + b| - 1] == a + b[..n];
      ParsedConcat(a, b[..n]);
    }
  }

  /** The keyset loop of `discover_bootstrap`, from any start key: keyset paging is a full
      sorted scan.  The concatenated pages list the valid rows beyond the key in key order,
      each exactly once, and the loop ends. */
  method DrainKeyset(t: Table, start: Key, limit: nat) returns (rows: seq<Row>, pools: seq<Row>, next: Key)
    requires TableOk(t) && 1 <= limit <= I64_MAX
    ensures InKeyOrder(rows)
    ensures forall r :: r in rows <==> r in t && r.valid && Less(start, CreatedKey(r))
    ensures pools == Parsed(rows)
    ensures next == if rows == [] then start else CreatedKey(rows[|rows| - 1])
  {
    rows, pools, next := [], [], start;
    LessOrder();
    var hasMore := true;
    while hasMore
      invariant InKeyOrder(rows) && pools == Parsed(rows)
      invariant next == if rows == [] then start else CreatedKey(rows[|rows| - 1])
      invariant !Less(next, start)
      invariant forall r :: r in rows <==> r in t && r.valid && Less(start, CreatedKey(r)) && !Less(next, CreatedKey(r))
      invariant !hasMore ==> forall r :: r in t && r.valid ==> !Less(next, CreatedKey(r))
      decreases hasMore, CreatedBeyond(t, next)
    {
      var fetched := FetchPoolMetaPage(t, next, limit);
      var page := fetched.value;
      AscendingConcat(rows, page.rows, next);
      ParsedConcat(rows, page.rows);
      KeysetProgress(t, next, limit, page);
      rows, pools, next, hasMore := rows + page.rows, pools + page.pools, page.next, page.hasMore;
    }
  }

  lemma KeysetProgress(t: Table, after: Key, limit: nat, p: KeysetPage)
    requires IsKeysetPage(t, after, limit, p) && 1 <= limit
    ensures !Less(p.next, after)
    ensures CreatedBeyond(t, p.next) <= CreatedBeyond(t, after)
    ensures p.hasMore ==> CreatedBeyond(t, p.next) < CreatedBeyond(t, after)
  {
    LessOrder();
    if p.rows != [] {
      var last := p.rows[|p.rows| - 1];
      assert last in p.rows;
      assert Created(last) in CreatedBeyond(t, after) && Created(last) !in CreatedBeyond(t, p.next);
    }
  }

  /** Two ascending lists of the same rows are the same list: the drained result is unique. */
  lemma {:induction false} AscendingUnique(a: seq<Row>, b: seq<Row>)
    requires InKeyOrder(a) && InKeyOrder(b) && forall r :: r in a <==> r in b
    ensures a == b
  {
    LessOrder();
    assert a != [] ==> a[0] in b;
    assert b != [] ==> b[0] in a;
    if a == [] {
    } else {
      var m, n := |a| - 1, |b| - 1;
      assert a[m] in b && b[n] in a;
      var i :| 0 <= i < |b| && b[i] == a[m];
      var j :| 0 <= j < |a| && a[j] == b[n];
      assert a[m] == b[n];
      forall r
        ensures r in a[..m] <==> r in b[..n]
      {
        assert r in a[..m] ==> r in a && r != a[m];
        assert r in b[..n] ==> r in b && r != b[n];
        assert r in a && r != a[m] ==> r in a[..m];
        assert r in b && r != b[n] ==> r in b[..n];
      }
      AscendingUnique(a[..m], b[..n]);
      assert a == a[..m] + [a[m]] && b == b[..n] + [b[n]];
    }
  }

  // ---------------------------------------------------------------- the incremental pager

  /** `DiscoveryCursor`: a created and an updated watermark. */
  datatype Cursor = Cursor(lastBlock: nat, lastBlockId: string, lastUpdatedBlock: nat, lastUpdatedId: string)

  function CreatedMark(c: Cursor): Key { Key(c.lastBlock, c.lastBlockId) }

  /** The updated watermark the query is run with. */
  function UpdatedMark(c: Cursor): Key {
    Key(if c.lastUpdatedBlock == 0 then c.lastBlock else c.lastUpdatedBlock, c.lastUpdatedId)
  }

  /** The union of the two streams, before ORDER BY and LIMIT. */
  function IncrementalFilter(t: Table, c: Cursor): set<Item> {
    CreatedBeyond(t, CreatedMark(c)) + UpdatedBeyond(t, UpdatedMark(c), c.lastBlock)
  }

  /** The condition under which draining is complete: the updated watermark is unset, or not
      behind the created one. */
  predicate CursorOk(c: Cursor) {
    c.lastBlock > 0 && (c.lastUpdatedBlock == 0 || c.lastUpdatedBlock >= c.lastBlock)
  }

  predicate InRange(c: Cursor) { c.lastBlock <= I32_MAX && c.lastUpdatedBlock <= I32_MAX }

  /** The widths are those of the SQL parameters. */
  lemma Widths(c: Cursor, limit: nat)
    ensures InRange(c) <==> c.lastBlock <= 0x7fff_ffff && c.lastUpdatedBlock <= 0x7fff_ffff
    ensures limit > I64_MAX <==> limit > 0x7fff_ffff_ffff_ffff
  {
  }

  /** `advance_cursor_pair`. */
  function AdvancePair(mark: Key, candidate: Key): (r: Key)
    ensures r == mark || r == candidate
    ensures !Less(r, mark) && !Less(r, candidate)
  {
    LessOrder();
    if Less(mark, candidate) then candidate else mark
  }

  function NonNegative(n: int): nat { if n < 0 then 0 else n }

  function ClampKey(k: Key): Key { Key(NonNegative(k.block), k.id) }

  /** Created watermark after reading `page`. */
  function FoldCreated(mark: Key, page: seq<Item>): Key {
    if page == [] then mark
    else
      var n := |page| - 1;
      var m := FoldCreated(mark, page[..n]);
      if page[n].Created? then AdvancePair(m, ClampKey(SortKey(page[n]))) else m
  }

  function FoldUpdated(mark: Key, page: seq<Item>): Key {
    if page == [] then mark
    else
      var n := |page| - 1;
      var m := FoldUpdated(mark, page[..n]);
      if page[n].Updated? then AdvancePair(m, ClampKey(SortKey(page[n]))) else m
  }

  /** The bump: an updated watermark behind the created one is raised to it, and its id
      cleared. */
  function Bump(created: Key, updated: Key): Cursor
    requires created.block >= 0 && updated.block >= 0
  {
    if updated.block < created.block then Cursor(created.block, created.id, created.block, "")
    else Cursor(created.block, created.id, updated.block, updated.id)
  }

  lemma {:induction false} FoldBlocks(mark: Key, page: seq<Item>)
    requires mark.block >= 0
    ensures FoldCreated(mark, page).block >= mark.block && FoldUpdated(mark, page).block >= mark.block
  {
    if page == [] {
    } else {
      FoldBlocks(mark, page[..|page| - 1]);
    }
  }

  /** The cursor `parse_incremental_rows` returns. */
  function NextCursor(c: Cursor, page: seq<Item>): Cursor {
    var created := FoldCreated(CreatedMark(c), page);
    var updated := FoldUpdated(Key(c.lastUpdatedBlock, c.lastUpdatedId), page);
    FoldBlocks(CreatedMark(c), page);
    FoldBlocks(Key(c.lastUpdatedBlock, c.lastUpdatedId), page);
    Bump(created, updated)
  }

  /** A folded watermark is the largest key seen. */
  lemma {:induction false} FoldIsMax(mark: Key, page: seq<Item>)
    requires forall i :: 0 <= i < |page| ==> SortKey(page[i]).block >= 0
    ensures var m := FoldCreated(mark, page);
      && !Less(m, mark)
      && (m == mark || exists i :: 0 <= i < |page| && page[i].Created? && m == SortKey(page[i]))
      && (forall i :: 0 <= i < |page| && page[i].Created? ==> !Less(m, SortKey(page[i])))
    ensures var m := FoldUpdated(mark, page);
      && !Less(m, mark)
      && (m == mark || exists i :: 0 <= i < |page| && page[i].Updated? && m == SortKey(page[i]))
      && (forall i :: 0 <= i < |page| && page[i].Updated? ==> !Less(m, SortKey(page[i])))
  {
    LessOrder();
    if page == [] {
    } else {
      var n := |page| - 1;
      FoldIsMax(mark, page[..n]);
      assert forall i :: 0 <= i < n ==> page[..n][i] == page[i];
    }
  }

  /** `parse_incremental_rows`. */
  method ParseIncrementalRows(page: seq<Item>, initial: Cursor)
    returns (pools: seq<Row>, cursor: Cursor, rejected: nat)
    ensures cursor == NextCursor(initial, page)
    ensures pools == Parsed(Rows(page)) && |pools| + rejected == |page|
  {
    var created, updated := CreatedMark(initial), Key(initial.lastUpdatedBlock, initial.lastUpdatedId);
    pools, rejected := [], 0;
    for i := 0 to |page|
      invariant created == FoldCreated(CreatedMark(initial), page[..i])
      invariant updated == FoldUpdated(Key(initial.lastUpdatedBlock, initial.lastUpdatedId), page[..i])
      invariant pools == Parsed(Rows(page[..i])) && |pools| + rejected == i
    {
      assert page[..i + 1][..i] == page[..i];
      assert Rows(page[..i + 1])[..i] == Rows(page[..i]);
      match page[i] {
        case Updated(r) => updated := AdvancePair(updated, ClampKey(UpdatedKey(r)));
        case Created(r) => created := AdvancePair(created, ClampKey(CreatedKey(r)));
      }
      if page[i].row.parses {
        pools := pools + [page[i].row];
      } else {
        rejected := rejected + 1;
      }
    }
    assert page[..|page|] == page;
    FoldBlocks(CreatedMark(initial), page);
    FoldBlocks(Key(initial.lastUpdatedBlock, initial.lastUpdatedId), page);
    cursor := Bump(created, updated);
  }

  lemma FilterBlocks(t: Table, c: Cursor, x: Item)
    requires c.lastBlock > 0 && x in IncrementalFilter(t, c)
    ensures SortKey(x).block > 0 && x.row in t && x.row.valid
    ensures x.Created? ==> SortKey(x).block >= c.lastBlock
    ensures CursorOk(c) ==> SortKey(x).block >= c.lastBlock
  {
  }

  /** Within one stream the sort key identifies the row. */
  lemma SameStreamKey(t: Table, x: Item, y: Item)
    requires TableOk(t) && x.row in t && y.row in t
    requires x.Created? == y.Created?
    ensures SortKey(x) == SortKey(y) ==> x == y
  {
  }

  /** What a page leaves behind lies beyond the folded watermark of its stream, and at or
      beyond every key of the page. */
  lemma LeftBehind(t: Table, c: Cursor, limit: nat, page: seq<Item>, x: Item)
    requires TableOk(t) && CursorOk(c) && IsPage(IncrementalFilter(t, c), limit, page)
    requires x in IncrementalFilter(t, c) && x !in page
    ensures x.Created? ==> Less(FoldCreated(CreatedMark(c), page), SortKey(x))
    ensures x.Updated? ==> Less(FoldUpdated(Key(c.lastUpdatedBlock, c.lastUpdatedId), page), SortKey(x))
    ensures FoldCreated(CreatedMark(c), page).block <= SortKey(x).block
  {
    LessOrder();
    PageBlocks(t, c, limit, page);
    FilterBlocks(t, c, x);
    FoldIsMax(CreatedMark(c), page);
    FoldIsMax(Key(c.lastUpdatedBlock, c.lastUpdatedId), page);
    forall i | 0 <= i < |page| && page[i].Created? == x.Created?
      ensures Less(SortKey(page[i]), SortKey(x))
    {
      SameStreamKey(t, page[i], x);
    }
  }

  lemma PageBlocks(t: Table, c: Cursor, limit: nat, page: seq<Item>)
    requires c.lastBlock > 0 && IsPage(IncrementalFilter(t, c), limit, page)
    ensures forall i :: 0 <= i < |page| ==> SortKey(page[i]).block > 0 && page[i].row in t && page[i].row.valid
  {
    forall i | 0 <= i < |page|
      ensures SortKey(page[i]).block > 0 && page[i].row in t && page[i].row.valid
    {
      FilterBlocks(t, c, page[i]);
    }
  }

  /** One page establishes the cursor condition, from any bootstrapped cursor. */
  lemma PageGivesCursorOk(t: Table, c: Cursor, limit: nat, page: seq<Item>)
    requires TableOk(t) && c.lastBlock > 0 && InRange(c) && IsPage(IncrementalFilter(t, c), limit, page)
    ensures CursorOk(NextCursor(c, page)) && InRange(NextCursor(c, page))
    ensures NextCursor(c, page).lastUpdatedBlock > 0
    ensures NextCursor(c, page).lastBlock >= c.lastBlock
  {
    PageBlocks(t, c, limit, page);
    FoldIsMax(CreatedMark(c), page);
    FoldIsMax(Key(c.lastUpdatedBlock, c.lastUpdatedId), page);
  }

  /** Nothing left behind by a page falls out of the next filter, bump or not. */
  lemma PageLosesNothing(t: Table, c: Cursor, limit: nat, page: seq<Item>, x: Item)
    requires TableOk(t) && CursorOk(c) && InRange(c) && IsPage(IncrementalFilter(t, c), limit, page)
    requires x in IncrementalFilter(t, c) && x !in page
    ensures x in IncrementalFilter(t, NextCursor(c, page))
  {
    LeftBehind(t, c, limit, page, x);
    PageGivesCursorOk(t, c, limit, page);
    FilterBlocks(t, c, x);
    var c' := NextCursor(c, page);
    if x.Created? {
      assert CreatedMark(c') == FoldCreated(CreatedMark(c), page);
    } else {
      assert Less(UpdatedMark(c'), UpdatedKey(x.row));
    }
  }

  /** A non-empty page makes progress: fewer created rows remain, or as many created rows and
      fewer updated ones. */
  lemma PageProgress(t: Table, c: Cursor, limit: nat, page: seq<Item>)
    requires TableOk(t) && c.lastBlock > 0 && InRange(c) && IsPage(IncrementalFilter(t, c), limit, page)
    requires page != []
    ensures var c' := NextCursor(c, page);
      || CreatedBeyond(t, CreatedMark(c')) < CreatedBeyond(t, CreatedMark(c))
      || (CreatedMark(c') == CreatedMark(c)
          && UpdatedBeyond(t, UpdatedMark(c'), c'.lastBlock) < UpdatedBeyond(t, UpdatedMark(c), c.lastBlock))
  {
    LessOrder();
    PageBlocks(t, c, limit, page);
    PageGivesCursorOk(t, c, limit, page);
    FoldIsMax(CreatedMark(c), page);
    FoldIsMax(Key(c.lastUpdatedBlock, c.lastUpdatedId), page);
    var c' := NextCursor(c, page);
    assert CreatedMark(c') == FoldCreated(CreatedMark(c), page);
    if i :| 0 <= i < |page| && page[i].Created? {
      var r := page[i].row;
      assert Created(r) in CreatedBeyond(t, CreatedMark(c));
      assert Created(r) !in CreatedBeyond(t, CreatedMark(c'));
    } else {
      var r := page[0].row;
      FilterBlocks(t, c, page[0]);
      assert Updated(r) in UpdatedBeyond(t, UpdatedMark(c), c.lastBlock);
      assert !Less(UpdatedMark(c'), SortKey(page[0]));
      assert Updated(r) !in UpdatedBeyond(t, UpdatedMark(c'), c'.lastBlock);
      assert Less(UpdatedMark(c), UpdatedMark(c'));
    }
  }

  datatype IncrementalPage = IncrementalPage(items: seq<Item>, pools: seq<Row>, next: Cursor, hasMore: bool)

  method FetchPoolMetaIncremental(t: Table, c: Cursor, limit: nat) returns (r: Result<IncrementalPage>)
    ensures r == Err(NotBootstrapped) <==> c.lastBlock == 0
    ensures r == Err(BlockOverflow) <==> c.lastBlock > 0 && !InRange(c)
    ensures r.Ok? <==> c.lastBlock > 0 && InRange(c)
    ensures r.Ok? ==> IsPage(IncrementalFilter(t, c), limit, r.value.items)
    ensures r.Ok? ==> r.value.pools == Parsed(Rows(r.value.items))
    ensures r.Ok? ==> r.value.next == NextCursor(c, r.value.items)
    ensures r.Ok? ==> (r.value.hasMore <==> |r.value.items| == limit)
  {
    if c.lastBlock == 0 {
      return Err(NotBootstrapped);
    }
    if c.lastBlock > I32_MAX || c.lastUpdatedBlock > I32_MAX {
      return Err(BlockOverflow);
    }
    var items := RunQuery(IncrementalFilter(t, c), limit);
    var pools, next, _ := ParseIncrementalRows(items, c);
    return Ok(IncrementalPage(items, pools, next, |items| == limit));
  }

  /** A valid row beyond either watermark of the cursor. */
  predicate Due(t: Table, c: Cursor, r: Row) {
    && r in t && r.valid
    && (Less(CreatedMark(c), CreatedKey(r))
        || (r.updatedAtBlock.Some? && Less(UpdatedMark(c), UpdatedKey(r))))
  }

  /** Still to come: the row sits in the filter of one of the two streams. */
  predicate Ahead(t: Table, c: Cursor, r: Row) {
    Created(r) in IncrementalFilter(t, c) || Updated(r) in IncrementalFilter(t, c)
  }

  lemma DueIsAhead(t: Table, c: Cursor, r: Row)
    requires Due(t, c, r)
    ensures Ahead(t, c, r)
  {
  }

  lemma PageDelivers(t: Table, c: Cursor, limit: nat, page: seq<Item>, r: Row)
    requires TableOk(t) && CursorOk(c) && InRange(c) && IsPage(IncrementalFilter(t, c), limit, page)
    requires Ahead(t, c, r)
    ensures r in Rows(page) || (|page| == limit && Ahead(t, NextCursor(c, page), r))
  {
    var x := if Created(r) in IncrementalFilter(t, c) then Created(r) else Updated(r);
    if x in page {
      var i :| 0 <= i < |page| && page[i] == x;
      assert Rows(page)[i] == r;
    } else {
      PageLosesNothing(t, c, limit, page, x);
    }
  }

  /** Everything due at the start has been returned or is still ahead. */
  ghost predicate Complete(t: Table, start: Cursor, rows: seq<Row>, c: Cursor, hasMore: bool) {
    && (forall r :: Due(t, start, r) ==> r in rows || (hasMore && Ahead(t, c, r)))
    && (forall r :: r in rows ==> r in t && r.valid)
    && (hasMore || forall r :: r in t && r.valid ==> !Less(CreatedMark(c), CreatedKey(r)))
  }

  lemma CompleteAtStart(t: Table, start: Cursor)
    ensures Complete(t, start, [], start, true)
  {
    forall r | Due(t, start, r)
      ensures Ahead(t, start, r)
    {
      DueIsAhead(t, start, r);
    }
  }

  lemma PageKeepsComplete(t: Table, start: Cursor, rows: seq<Row>, c: Cursor, limit: nat, page: seq<Item>)
    requires TableOk(t) && CursorOk(c) && InRange(c) && IsPage(IncrementalFilter(t, c), limit, page)
    requires Complete(t, start, rows, c, true)
    ensures Complete(t, start, rows + Rows(page), NextCursor(c, page), |page| == limit)
  {
    var rows' := rows + Rows(page);
    PageBlocks(t, c, limit, page);
    forall r | Due(t, start, r)
      ensures r in rows' || (|page| == limit && Ahead(t, NextCursor(c, page), r))
    {
      if r !in rows {
        PageDelivers(t, c, limit, page, r);
      }
    }
    if |page| < limit {
      CreatedDrained(t, c, limit, page);
    }
  }

  lemma CreatedDrained(t: Table, c: Cursor, limit: nat, page: seq<Item>)
    requires CursorOk(c) && IsPage(IncrementalFilter(t, c), limit, page) && |page| < limit
    ensures forall r :: r in t && r.valid ==> !Less(CreatedMark(NextCursor(c, page)), CreatedKey(r))
  {
    LessOrder();
    PageBlocks(t, c, limit, page);
    FoldIsMax(CreatedMark(c), page);
    forall r | r in t && r.valid
      ensures !Less(CreatedMark(NextCursor(c, page)), CreatedKey(r))
    {
      assert Less(CreatedMark(c), CreatedKey(r)) ==> Created(r) in IncrementalFilter(t, c);
      assert Less(CreatedMark(c), CreatedKey(r)) ==> Created(r) in page;
    }
  }

  /** The loop invariant of the drain: no junk ever, and completeness from a sound cursor. */
  ghost predicate DrainInv(t: Table, start: Cursor, rows: seq<Row>, c: Cursor, hasMore: bool) {
    && (forall q :: q in rows ==> q in t && q.valid)
    && (CursorOk(start) ==> CursorOk(c) && Complete(t, start, rows, c, hasMore))
    && ((hasMore && c == start) || (start.lastBlock > 0 && InRange(start) && CursorOk(c) && InRange(c)))
  }

  function CreatedLeft(t: Table, c: Cursor): set<Item> { CreatedBeyond(t, CreatedMark(c)) }

  function UpdatedLeft(t: Table, c: Cursor): set<Item> { UpdatedBeyond(t, UpdatedMark(c), c.lastBlock) }

  lemma DrainStep(t: Table, start: Cursor, rows: seq<Row>, c: Cursor, limit: nat, page: seq<Item>)
    requires TableOk(t) && limit >= 1 && c.lastBlock > 0 && InRange(c)
    requires IsPage(IncrementalFilter(t, c), limit, page)
    requires DrainInv(t, start, rows, c, true)
    ensures var c' := NextCursor(c, page);
      && DrainInv(t, start, rows + Rows(page), c', |page| == limit)
      && (|page| < limit
          || CreatedLeft(t, c') < CreatedLeft(t, c)
          || (CreatedLeft(t, c') == CreatedLeft(t, c) && UpdatedLeft(t, c') < UpdatedLeft(t, c)))
  {
    PageGivesCursorOk(t, c, limit, page);
    if CursorOk(start) {
      PageKeepsComplete(t, start, rows, c, limit, page);
    }
    PageBlocks(t, c, limit, page);
    if page != [] {
      PageProgress(t, c, limit, page);
    }
  }

  /** An unset updated watermark has no id. */
  predicate PlainId(c: Cursor) { c.lastUpdatedBlock == 0 ==> c.lastUpdatedId == "" }

  /** Neither query watermark of `c` is behind that of `start`. */
  predicate NotBehind(start: Cursor, c: Cursor) {
    !Less(CreatedMark(c), CreatedMark(start)) && !Less(UpdatedMark(c), UpdatedMark(start))
  }

  lemma PageNotBehind(t: Table, start: Cursor, c: Cursor, limit: nat, page: seq<Item>)
    requires c.lastBlock > 0 && IsPage(IncrementalFilter(t, c), limit, page)
    requires NotBehind(start, c) && PlainId(c)
    ensures NotBehind(start, NextCursor(c, page)) && PlainId(NextCursor(c, page))
  {
    LessOrder();
    PageBlocks(t, c, limit, page);
    FoldIsMax(CreatedMark(c), page);
    FoldIsMax(Key(c.lastUpdatedBlock, c.lastUpdatedId), page);
    var c', raw := NextCursor(c, page), FoldUpdated(Key(c.lastUpdatedBlock, c.lastUpdatedId), page);
    assert CreatedMark(c') == FoldCreated(CreatedMark(c), page);
    assert !Less(UpdatedMark(c'), UpdatedMark(c)) by {
      assert UpdatedMark(c') == if raw.block < c'.lastBlock then Key(c'.lastBlock, "") else raw;
    }
  }

  /** From a cursor not behind the start, a page holds only rows that were due at the start. */
  lemma PageIsDue(t: Table, start: Cursor, c: Cursor, limit: nat, page: seq<Item>, r: Row)
    requires IsPage(IncrementalFilter(t, c), limit, page) && NotBehind(start, c) && r in Rows(page)
    ensures Due(t, start, r)
  {
    LessOrder();
    var i :| 0 <= i < |page| && Rows(page)[i] == r;
    assert page[i] in IncrementalFilter(t, c);
  }

  /** The drain so far returned nothing that was not due at the start. */
  ghost predicate OnlyDue(t: Table, start: Cursor, rows: seq<Row>, c: Cursor) {
    PlainId(start) ==> PlainId(c) && NotBehind(start, c) && forall q :: q in rows ==> Due(t, start, q)
  }

  lemma OnlyDueStep(t: Table, start: Cursor, rows: seq<Row>, c: Cursor, limit: nat, page: seq<Item>)
    requires c.lastBlock > 0 && IsPage(IncrementalFilter(t, c), limit, page) && OnlyDue(t, start, rows, c)
    ensures OnlyDue(t, start, rows + Rows(page), NextCursor(c, page))
  {
    if PlainId(start) {
      PageNotBehind(t, start, c, limit, page);
      forall q | q in rows + Rows(page)
        ensures Due(t, start, q)
      {
        if q in Rows(page) {
          PageIsDue(t, start, c, limit, page, q);
        }
      }
    }
  }

  datatype Drained = Drained(rows: seq<Row>, pools: seq<Row>, cursor: Cursor)

  /** `discover_incremental`.  From every cursor the loop ends, and reports an error exactly
      when the first fetch does.  When the updated watermark is unset or not behind the created
      one, it returns every valid row beyond either starting watermark, despite the shared
      LIMIT and the bump, and leaves a cursor of the same kind with no created row ahead.  When
      an unset updated watermark has no id, it returns only such rows. */
  method DiscoverIncremental(t: Table, start: Cursor, limit: nat) returns (r: Result<Drained>)
    requires TableOk(t) && limit >= 1
    ensures r.Err? <==> start.lastBlock == 0 || !InRange(start)
    ensures r.Ok? ==> CursorOk(r.value.cursor) && InRange(r.value.cursor)
    ensures r.Ok? ==> r.value.pools == Parsed(r.value.rows)
    ensures r.Ok? ==> forall q :: q in r.value.rows ==> q in t && q.valid
    ensures r.Ok? && CursorOk(start) ==> forall q :: Due(t, start, q) ==> q in r.value.rows
    ensures r.Ok? && PlainId(start) ==> forall q :: q in r.value.rows ==> Due(t, start, q)
    ensures r.Ok? && CursorOk(start) ==>
              forall q :: q in t && q.valid ==> !Less(CreatedMark(r.value.cursor), CreatedKey(q))
  {
    var rows, pools, next := [], [], start;
    CompleteAtStart(t, start);
    LessOrder();
    var hasMore := true;
    while hasMore
      invariant DrainInv(t, start, rows, next, hasMore) && OnlyDue(t, start, rows, next)
      invariant pools == Parsed(rows)
      decreases hasMore, CreatedLeft(t, next), UpdatedLeft(t, next)
    {
      var fetched := FetchPoolMetaIncremental(t, next, limit);
      if fetched.Err? {
        return Err(fetched.error);
      }
      var page := fetched.value;
      DrainStep(t, start, rows, next, limit, page.items);
      OnlyDueStep(t, start, rows, next, limit, page.items);
      ParsedConcat(rows, Rows(page.items));
      rows, pools, next, hasMore := rows + Rows(page.items), pools + page.pools, page.next, page.hasMore;
    }
    return Ok(Drained(rows, pools, next));
  }

  // ---------------------------------------------------------------- the condition is exact

  function Repeat(n: nat): (s: string)
    ensures |s| == n
  {
    seq(n, i => 'a')
  }

  /** Row number `i` of the table that defeats the stale cursor `c`. */
  function StaleRow(c: Cursor, i: nat): Row {
    Row(c.lastUpdatedId + Repeat(i + 1), 0, Some(c.lastUpdatedBlock), true, true)
  }

  lemma StaleRowsAscend(c: Cursor, i: nat, j: nat)
    requires i < j
    ensures Less(UpdatedKey(StaleRow(c, i)), UpdatedKey(StaleRow(c, j)))
    ensures Less(Key(c.lastUpdatedBlock, c.lastUpdatedId), UpdatedKey(StaleRow(c, i)))
  {
    PrefixBefore(c.lastUpdatedId, StaleRow(c, i).id);
    PrefixBefore(StaleRow(c, i).id, StaleRow(c, j).id);
  }

  lemma {:induction false} StaleFold(c: Cursor, page: seq<Item>)
    requires forall i :: 0 <= i < |page| ==> page[i] == Updated(StaleRow(c, i))
    ensures FoldCreated(CreatedMark(c), page) == CreatedMark(c)
    ensures FoldUpdated(Key(c.lastUpdatedBlock, c.lastUpdatedId), page).block == c.lastUpdatedBlock
  {
    if page == [] {
    } else {
      StaleFold(c, page[..|page| - 1]);
    }
  }

  function StaleTable(c: Cursor, n: nat): Table { set i: nat | i <= n :: StaleRow(c, i) }

  function StalePage(c: Cursor, n: nat): seq<Item> {
    seq(n, i requires 0 <= i < n => Updated(StaleRow(c, i)))
  }

  lemma StaleTableOk(c: Cursor, n: nat)
    requires InRange(c)
    ensures TableOk(StaleTable(c, n))
  {
    forall r, q | r in StaleTable(c, n) && q in StaleTable(c, n) && r.id == q.id
      ensures r == q
    {
      var i: nat :| i <= n && r == StaleRow(c, i);
      var j: nat :| j <= n && q == StaleRow(c, j);
      assert |r.id| == |c.lastUpdatedId| + i + 1 && |q.id| == |c.lastUpdatedId| + j + 1;
    }
  }

  lemma StaleFilter(c: Cursor, n: nat, x: Item)
    requires 0 < c.lastUpdatedBlock < c.lastBlock
    ensures x in IncrementalFilter(StaleTable(c, n), c)
       <==> x.Updated? && exists i: nat :: i <= n && x.row == StaleRow(c, i)
  {
    if x.Updated? && exists i: nat :: i <= n && x.row == StaleRow(c, i) {
      var i: nat :| i <= n && x.row == StaleRow(c, i);
      StaleRowsAscend(c, i, i + 1);
      assert x.row in StaleTable(c, n);
    }
  }

  lemma StalePageIsPage(c: Cursor, n: nat)
    requires 0 < c.lastUpdatedBlock < c.lastBlock
    ensures IsPage(IncrementalFilter(StaleTable(c, n), c), n, StalePage(c, n))
    ensures StaleRow(c, n) !in Rows(StalePage(c, n))
  {
    var f, page := IncrementalFilter(StaleTable(c, n), c), StalePage(c, n);
    forall i: nat, j: nat | i < j
      ensures !Less(UpdatedKey(StaleRow(c, j)), UpdatedKey(StaleRow(c, i)))
      ensures StaleRow(c, i) != StaleRow(c, j)
    {
      LessOrder();
      StaleRowsAscend(c, i, j);
    }
    forall i | 0 <= i < |page|
      ensures page[i] in f
    {
      StaleFilter(c, n, page[i]);
    }
    forall x | x in f && x !in page
      ensures x == Updated(StaleRow(c, n))
    {
      StaleRest(c, n, x);
    }
  }

  lemma StaleRest(c: Cursor, n: nat, x: Item)
    requires 0 < c.lastUpdatedBlock < c.lastBlock
    requires x in IncrementalFilter(StaleTable(c, n), c) && x !in StalePage(c, n)
    ensures x == Updated(StaleRow(c, n))
  {
    StaleFilter(c, n, x);
    var i: nat :| i <= n && x.row == StaleRow(c, i);
    var page := StalePage(c, n);
    assert forall k: nat :: k < n ==> page[k] == Updated(StaleRow(c, k));
  }

  /** Whenever the updated watermark is set but behind the created one, some table loses a row:
      the first page is full, the bump jumps over a row that is due, and nothing is left.  So
      draining is complete for every table exactly when `CursorOk` holds. */
  lemma StaleUpdatedWatermarkLosesRow(c: Cursor, limit: nat) returns (t: Table, page: seq<Item>, lost: Row)
    requires 0 < c.lastUpdatedBlock < c.lastBlock && InRange(c) && limit >= 1
    ensures TableOk(t) && Due(t, c, lost)
    ensures IsPage(IncrementalFilter(t, c), limit, page) && |page| == limit
    ensures lost !in Rows(page)
    ensures IncrementalFilter(t, NextCursor(c, page)) == {}
  {
    t, page, lost := StaleTable(c, limit), StalePage(c, limit), StaleRow(c, limit);
    StaleTableOk(c, limit);
    StalePageIsPage(c, limit);
    StaleRowsAscend(c, limit, limit + 1);
    assert lost in t;
    StaleFold(c, page);
    assert UpdatedMark(NextCursor(c, page)) == Key(c.lastBlock, "");
  }

  /** Created row number `i` of the table that makes the unset cursor `c` go back. */
  function FillerRow(c: Cursor, i: nat): Row {
    Row(c.lastBlockId + Repeat(|c.lastUpdatedId| + 1 + i), c.lastBlock, None, true, true)
  }

  function ExtraRow(c: Cursor): Row { Row(c.lastUpdatedId, 0, Some(c.lastBlock), true, true) }

  function UnsetTable(c: Cursor, n: nat): Table { (set i: nat | i < n :: FillerRow(c, i)) + {ExtraRow(c)} }

  function UnsetPage(c: Cursor, n: nat): seq<Item> { seq(n, i requires 0 <= i < n => Created(FillerRow(c, i))) }

  lemma FillersAscend(c: Cursor, i: nat, j: nat)
    requires i < j
    ensures Less(CreatedKey(FillerRow(c, i)), CreatedKey(FillerRow(c, j)))
    ensures Less(CreatedMark(c), CreatedKey(FillerRow(c, i)))
  {
    PrefixBefore(c.lastBlockId, FillerRow(c, i).id);
    PrefixBefore(FillerRow(c, i).id, FillerRow(c, j).id);
  }

  lemma UnsetTableOk(c: Cursor, n: nat)
    requires InRange(c) && c.lastUpdatedId != ""
    ensures TableOk(UnsetTable(c, n))
  {
    forall i: nat
      ensures |FillerRow(c, i).id| == |c.lastBlockId| + |c.lastUpdatedId| + 1 + i
    {
    }
    assert |ExtraRow(c).id| == |c.lastUpdatedId|;
  }

  lemma UnsetFilter(c: Cursor, n: nat, x: Item)
    requires c.lastUpdatedBlock == 0 && c.lastBlock > 0
    ensures x in IncrementalFilter(UnsetTable(c, n), c) <==> x in UnsetPage(c, n)
  {
    LessOrder();
    if x in UnsetPage(c, n) {
      var i :| 0 <= i < n && UnsetPage(c, n)[i] == x;
      FillersAscend(c, i, i + 1);
    }
    if x in IncrementalFilter(UnsetTable(c, n), c) {
      assert x.row != ExtraRow(c);
      var i: nat :| i < n && x.row == FillerRow(c, i);
      assert UnsetPage(c, n)[i] == Created(FillerRow(c, i));
    }
  }

  lemma UnsetPageIsPage(c: Cursor, n: nat)
    requires c.lastUpdatedBlock == 0 && c.lastBlock > 0
    ensures IsPage(IncrementalFilter(UnsetTable(c, n), c), n, UnsetPage(c, n))
  {
    LessOrder();
    var page := UnsetPage(c, n);
    forall x
      ensures x in IncrementalFilter(UnsetTable(c, n), c) <==> x in page
    {
      UnsetFilter(c, n, x);
    }
    forall i, j | 0 <= i < j < n
      ensures Less(SortKey(page[i]), SortKey(page[j]))
    {
      FillersAscend(c, i, j);
    }
  }

  /** Whenever the updated watermark is unset but has an id, some table makes the drain return a row that was not
      due: the first page is full, the bump clears the id, and the watermark goes back before a row it was past.  So
      only due rows are returned for every table exactly when `PlainId` holds. */
  lemma UnsetWatermarkGoesBack(c: Cursor, limit: nat) returns (t: Table, page: seq<Item>, extra: Row)
    requires c.lastUpdatedBlock == 0 && c.lastUpdatedId != "" && c.lastBlock > 0 && InRange(c) && limit >= 1
    ensures TableOk(t) && extra in t && !Due(t, c, extra)
    ensures IsPage(IncrementalFilter(t, c), limit, page) && |page| == limit
    ensures Updated(extra) in IncrementalFilter(t, NextCursor(c, page))
  {
    LessOrder();
    t, page, extra := UnsetTable(c, limit), UnsetPage(c, limit), ExtraRow(c);
    UnsetTableOk(c, limit);
    UnsetPageIsPage(c, limit);
    FoldIsMax(CreatedMark(c), page);
    FoldIsMax(Key(c.lastUpdatedBlock, c.lastUpdatedId), page);
    assert UpdatedMark(NextCursor(c, page)) == Key(c.lastBlock, "");
  }

  // ---------------------------------------------------------------- bootstrap

  function MaxBlock(pools: seq<Row>): (m: nat)
    ensures forall r :: r in pools ==> r.createdBlock <= m
  {
    if pools == [] then 0
    else
      var n := |pools| - 1;
      var m := MaxBlock(pools[..n]);
      assert forall r :: r in pools ==> r in pools[..n] || r == pools[n];
      if NonNegative(pools[n].createdBlock) > m then NonNegative(pools[n].createdBlock) else m
  }

  /** `bootstrap_cursor_block`. */
  function BootstrapCursorBlock(keysetCreated: int, poolMax: nat): nat {
    var m := if NonNegative(keysetCreated) > poolMax then NonNegative(keysetCreated) else poolMax;
    if m == 0 then 1 else m
  }

  /** The maximum is attained, or zero. */
  lemma {:induction false} MaxBlockBound(pools: seq<Row>, top: nat)
    requires forall r :: r in pools ==> r.createdBlock <= top
    ensures MaxBlock(pools) <= top
  {
    if pools == [] {
    } else {
      var n := |pools| - 1;
      assert forall r :: r in pools[..n] ==> r in pools;
      MaxBlockBound(pools[..n], top);
      assert pools[n] in pools;
    }
  }

  lemma {:induction false} ParsedAreRows(rows: seq<Row>, r: Row)
    requires r in Parsed(rows)
    ensures r in rows
  {
    var n := |rows| - 1;
    if r in Parsed(rows[..n]) {
      ParsedAreRows(rows[..n], r);
    } else {
      assert r == rows[n];
    }
  }

  /** The cursor stands at the last of the rows, at block 1 at least, with no update read yet. */
  ghost predicate AtLastRow(rows: seq<Row>, c: Cursor) {
    && c.lastUpdatedBlock == c.lastBlock && c.lastUpdatedId == ""
    && (rows == [] ==> c.lastBlock == 1 && c.lastBlockId == "")
    && (rows != [] ==>
          var last := rows[|rows| - 1];
          c.lastBlockId == last.id && (c.lastBlock == last.createdBlock || (last.createdBlock == 0 && c.lastBlock == 1)))
  }

  /** `discover_bootstrap`: returns the valid rows with a non-negative creation block in key
      order, and a cursor from which `DiscoverIncremental` is complete and finds no created
      row ahead. */
  method DiscoverBootstrap(t: Table, batch: nat) returns (r: Result<Drained>)
    requires TableOk(t)
    ensures r.Err? <==> batch > I64_MAX
    ensures r.Ok? ==> InKeyOrder(r.value.rows) && r.value.pools == Parsed(r.value.rows)
    ensures r.Ok? ==> forall q :: q in r.value.rows <==> q in t && q.valid && q.createdBlock >= 0
    ensures r.Ok? ==> CursorOk(r.value.cursor) && InRange(r.value.cursor)
    ensures r.Ok? ==> forall q :: q in t && q.valid ==> !Less(CreatedMark(r.value.cursor), CreatedKey(q))
    ensures r.Ok? ==> AtLastRow(r.value.rows, r.value.cursor)
  {
    var limit := if batch == 0 then 1 else batch;
    if limit > I64_MAX {
      return Err(LimitOverflow);
    }
    var rows, pools, next := DrainKeyset(t, Key(0, ""), limit);
    LessOrder();
    assert forall q :: q in t ==> (Less(Key(0, ""), CreatedKey(q)) <==> q.createdBlock >= 0);
    forall q | q in pools
      ensures q.createdBlock <= I32_MAX
    {
      ParsedAreRows(rows, q);
    }
    MaxBlockBound(pools, I32_MAX);
    var block := BootstrapCursorBlock(next.block, MaxBlock(pools));
    assert rows != [] ==> rows[|rows| - 1] in rows;
    if rows != [] {
      forall q | q in rows
        ensures !Less(next, CreatedKey(q))
      {
        var i :| 0 <= i < |rows| && rows[i] == q;
      }
      forall q | q in pools
        ensures q.createdBlock <= rows[|rows| - 1].createdBlock
      {
        ParsedAreRows(rows, q);
      }
      MaxBlockBound(pools, rows[|rows| - 1].createdBlock);
    } else {
      MaxBlockBound(pools, 0);
    }
    return Ok(Drained(rows, pools, Cursor(block, next.id, block, "")));
  }

  /** Created above block 1 and beyond all these rows. */
  ghost predicate CreatedLater(rows: seq<Row>, q: Row) {
    q.createdBlock > 1 && forall r :: r in rows ==> Less(CreatedKey(r), CreatedKey(q))
  }

  /** Updated at a block not below any of these rows. */
  ghost predicate UpdatedLater(rows: seq<Row>, q: Row) {
    && q.updatedAtBlock.Some? && q.updatedAtBlock.value >= 1
    && forall r :: r in rows ==> r.createdBlock <= q.updatedAtBlock.value
  }

  /** The two phases of discovery, with the table changing in between: bootstrap on `before`, then one incremental
      drain on `after`, which cannot fail.  A valid row of `after` that neither returned is new or changed since,
      and was stamped at or below both watermarks of the bootstrap. */
  method BootstrapThenDrain(before: Table, after: Table, batch: nat, limit: nat)
    returns (first: Drained, second: Drained)
    requires TableOk(before) && TableOk(after) && batch <= I64_MAX && limit >= 1
    ensures forall q :: q in after && q.valid && q.createdBlock >= 0 && q !in first.rows && q !in second.rows ==>
      && q !in before && !Less(CreatedMark(first.cursor), CreatedKey(q))
      && (q.updatedAtBlock.None? || !Less(UpdatedMark(first.cursor), UpdatedKey(q)))
    // nothing stamped after the bootstrap is lost: created above block 1 and beyond all its rows, or updated at a
    // block not below any of them
    ensures forall q :: q in after && q.valid && CreatedLater(first.rows, q) ==> q in second.rows
    ensures forall q :: q in after && q.valid && UpdatedLater(first.rows, q) ==> q in second.rows
    ensures forall q :: q in after && q.valid ==> !Less(CreatedMark(second.cursor), CreatedKey(q))
    ensures CursorOk(second.cursor) && InRange(second.cursor)
  {
    var b := DiscoverBootstrap(before, batch);
    first := b.value;
    var d := DiscoverIncremental(after, first.cursor, limit);
    second := d.value;
    var rows := first.rows;
    assert rows != [] ==> rows[|rows| - 1] in rows;
    forall q | q in after && q.valid && CreatedLater(rows, q)
      ensures Due(after, first.cursor, q)
    {
    }
    forall q | q in after && q.valid && UpdatedLater(rows, q)
      ensures Due(after, first.cursor, q)
    {
    }
  }
}
