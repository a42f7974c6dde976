/** `KeysetPaginator.FetchPage` of `patterns/04_persistence/keyset_pagination.go`, and traversals that
    follow its cursors while the table underneath changes. */
module KeysetPagination {
  import opened Common
  import opened CursorCodec

  /** `createdAt` is `CreatedAt.UnixNano()`. */
  datatype Item = Item(id: Int64, title: string, createdAt: Int64)

  datatype PagedResult = PagedResult(items: seq<Item>, nextCursor: string, hasMore: bool)

  type FetchResult = Result<PagedResult, CursorError>

  // ---- The order of rows ----

  predicate Before(t: int, i: int, u: int, j: int) {
    t < u || (t == u && i < j)
  }

  predicate ItemLess(a: Item, b: Item) {
    Before(a.createdAt, a.id, b.createdAt, b.id)
  }

  /** `item` comes strictly after the cursor. */
  predicate IsAfter(item: Item, c: Cursor) {
    Before(c.lastTimestamp, c.lastID, item.createdAt, item.id)
  }

  predicate SameKey(a: Item, b: Item) {
    a.createdAt == b.createdAt && a.id == b.id
  }

  ghost predicate Sorted(items: seq<Item>) {
    forall i, j :: 0 <= i < j < |items| ==> ItemLess(items[i], items[j])
  }

  // ---- One page ----

  function Limit(limit: int): nat {
    if limit <= 0 then 10 else if limit > 100 then 100 else limit
  }

  /** The first row after the cursor, or the end of the table. */
  function StartIndex(items: seq<Item>, cursor: Option<Cursor>): nat {
    if cursor == None || items == [] || IsAfter(items[0], cursor.value) then 0
    else 1 + StartIndex(items[1..], cursor)
  }

  lemma {:induction false} StartIndexIsFirst(items: seq<Item>, c: Cursor)
    ensures var n := StartIndex(items, Some(c));
      && n <= |items| && (n < |items| ==> IsAfter(items[n], c))
      && forall i :: 0 <= i < n ==> !IsAfter(items[i], c)
    decreases |items|
  {
    if items != [] && !IsAfter(items[0], c) {
      StartIndexIsFirst(items[1..], c);
    }
  }

  function Min(a: int, b: int): int { if a <= b then a else b }

  /** A page before its next cursor is turned into a string. */
  datatype Page = Page(items: seq<Item>, next: Option<Cursor>, hasMore: bool)

  function KeyOf(item: Item): Cursor {
    Cursor(item.id, item.createdAt)
  }

  function PageAt(items: seq<Item>, cursor: Option<Cursor>, limit: nat): Page {
    StartIndexInRange(items, cursor);
    var start := StartIndex(items, cursor);
    var page := items[start..Min(start + limit, |items|)];
    var hasMore := start + |page| < |items|;
    Page(page, if page != [] && hasMore then Some(KeyOf(page[|page| - 1])) else None, hasMore)
  }

  function EncodeNext(next: Option<Cursor>): string {
    match next
    case Some(c) => EncodeCursor(c)
    case None => ""
  }

  function Fetch(items: seq<Item>, cursorStr: string, limit: int): FetchResult {
    match DecodeCursor(cursorStr)
    case Err(e) => Err(e)
    case Ok(cursor) =>
      var page := PageAt(items, cursor, Limit(limit));
      Ok(PagedResult(page.items, EncodeNext(page.next), page.hasMore))
  }

  /** Ten rows unless a number is asked for, and never more than a hundred. */
  ghost predicate IsPageSize(limit: int, size: nat) {
    && (limit <= 0 ==> size == 10)
    && (1 <= limit <= 100 ==> size == limit)
    && (limit > 100 ==> size == 100)
  }

  /** A page that is not the last is full, the last is not overfull, and there is a next cursor exactly
      when there is more; a request fails exactly when its cursor does not decode, and with that error. */
  lemma PagesAreFull(items: seq<Item>, cursorStr: string, limit: int, size: nat)
    requires IsPageSize(limit, size)
    ensures var r := Fetch(items, cursorStr, limit);
      && (r.Ok? && r.value.hasMore ==> |r.value.items| == size && r.value.nextCursor != "")
      && (r.Ok? && !r.value.hasMore ==> |r.value.items| <= size && r.value.nextCursor == "")
      && (r.Err? <==> DecodeCursor(cursorStr).Err?)
      && (r.Err? ==> r.error == DecodeCursor(cursorStr).error)
  {
    var decoded := DecodeCursor(cursorStr);
    if decoded.Ok? {
      StartIndexInRange(items, decoded.value);
      var page := PageAt(items, decoded.value, Limit(limit));
      if page.hasMore { CursorRoundTrip(page.next.value); }
    }
  }

  /** The next cursor means to the next request what it meant to this one. */
  lemma NextRoundTrip(next: Option<Cursor>)
    ensures DecodeCursor(EncodeNext(next)) == Ok(next)
  {
    if next.Some? { CursorRoundTrip(next.value); }
  }

  lemma StartIndexInRange(items: seq<Item>, cursor: Option<Cursor>)
    ensures StartIndex(items, cursor) <= |items|
  {
    if cursor.Some? { StartIndexIsFirst(items, cursor.value); }
  }

  // ---- Traversals ----

  /** One request of a traversal: the table as it is at that moment, and the page size asked for. */
  datatype Visit = Visit(table: seq<Item>, limit: int)

  /** Follow the cursors from `cursorStr`, one visit after another: all the rows returned, if the
      traversal ends with HasMore=false exactly at the last visit. */
  function Traverse(visits: seq<Visit>, cursorStr: string): Option<seq<Item>>
    decreases |visits|
  {
    if visits == [] then None
    else
      match Fetch(visits[0].table, cursorStr, visits[0].limit)
      case Err(_) => None
      case Ok(page) =>
        if !page.hasMore then (if |visits| == 1 then Some(page.items) else None)
        else
          match Traverse(visits[1..], page.nextCursor)
          case None => None
          case Some(rest) => Some(page.items + rest)
  }

  /** The same traversal on cursors rather than their strings. */
  function Walk(visits: seq<Visit>, cursor: Option<Cursor>): Option<seq<Item>>
    decreases |visits|
  {
    if visits == [] then None
    else
      var page := PageAt(visits[0].table, cursor, Limit(visits[0].limit));
      if !page.hasMore then (if |visits| == 1 then Some(page.items) else None)
      else
        match Walk(visits[1..], page.next)
        case None => None
        case Some(rest) => Some(page.items + rest)
  }

  lemma {:induction false} TraverseIsWalk(visits: seq<Visit>, cursorStr: string, cursor: Option<Cursor>)
    requires DecodeCursor(cursorStr) == Ok(cursor)
    ensures Traverse(visits, cursorStr) == Walk(visits, cursor)
    decreases |visits|
  {
    if visits != [] {
      var page := PageAt(visits[0].table, cursor, Limit(visits[0].limit));
      NextRoundTrip(page.next);
      TraverseIsWalk(visits[1..], EncodeNext(page.next), page.next);
    }
  }

  ghost predicate AllSorted(visits: seq<Visit>) {
    forall v :: v in visits ==> Sorted(v.table)
  }

  /** A row with `r`'s key is in the table at every visit. */
  ghost predicate PresentThroughout(r: Item, visits: seq<Visit>) {
    forall v :: v in visits ==> HasRow(v.table, r)
  }

  ghost predicate HasRow(items: seq<Item>, r: Item) {
    exists i :: 0 <= i < |items| && SameKey(items[i], r)
  }

  predicate IsBeyond(r: Item, cursor: Option<Cursor>) {
    cursor.Some? ==> IsAfter(r, cursor.value)
  }

  /** The rows before `StartIndex` are exactly those not beyond the cursor. */
  lemma StartSplits(items: seq<Item>, cursor: Option<Cursor>)
    requires Sorted(items)
    ensures StartIndex(items, cursor) <= |items|
    ensures forall i :: 0 <= i < |items| ==> (IsBeyond(items[i], cursor) <==> i >= StartIndex(items, cursor))
  {
    if cursor.Some? {
      StartIndexIsFirst(items, cursor.value);
      var n := StartIndex(items, cursor);
      forall i | n < i < |items| ensures IsBeyond(items[i], cursor) {
        assert ItemLess(items[n], items[i]);
      }
    }
  }

  /** A page holds consecutive rows beyond the cursor; a row of the table beyond the cursor is on it
      or comes after its last row, in which case there is more and the next cursor is that last row. */
  ghost predicate HasNextRows(items: seq<Item>, cursor: Option<Cursor>, page: Page) {
    && Sorted(page.items)
    && (forall i :: 0 <= i < |page.items| ==> page.items[i] in items && IsBeyond(page.items[i], cursor))
    && (page.hasMore ==> page.items != [] && page.next == Some(KeyOf(page.items[|page.items| - 1])))
    && (forall i :: 0 <= i < |items| && IsBeyond(items[i], cursor) ==>
         items[i] in page.items || (page.hasMore && IsBeyond(items[i], page.next)))
  }

  lemma PageIsNextRows(items: seq<Item>, cursor: Option<Cursor>, limit: nat)
    requires Sorted(items) && limit > 0
    ensures HasNextRows(items, cursor, PageAt(items, cursor, limit))
  {
    StartSplits(items, cursor);
    var n := StartIndex(items, cursor);
    var page := PageAt(items, cursor, limit);
    forall i | 0 <= i < |page.items| ensures page.items[i] == items[n + i] {}
    forall i | 0 <= i < |items| && IsBeyond(items[i], cursor)
      ensures items[i] in page.items || (page.hasMore && IsBeyond(items[i], page.next))
    {
      if i < n + |page.items| {
        assert items[i] == page.items[i - n];
      } else {
        assert ItemLess(items[n + |page.items| - 1], items[i]);
      }
    }
  }

  /** `rows` is a correct traversal from `cursor`. */
  ghost predicate IsExact(visits: seq<Visit>, cursor: Option<Cursor>, rows: seq<Item>) {
    && Sorted(rows)
    && (forall i :: 0 <= i < |rows| ==> IsBeyond(rows[i], cursor) && IsFrom(rows[i], visits))
    && (forall r :: IsBeyond(r, cursor) && PresentThroughout(r, visits) ==> HasRow(rows, r))
  }

  /** What a traversal that starts at `cursor` returns. */
  lemma {:induction false} WalkIsExact(visits: seq<Visit>, cursor: Option<Cursor>, rows: seq<Item>)
    requires AllSorted(visits) && Walk(visits, cursor) == Some(rows)
    ensures IsExact(visits, cursor, rows)
    decreases |visits|
  {
    var v0 := visits[0];
    var page := PageAt(v0.table, cursor, Limit(v0.limit));
    PageIsNextRows(v0.table, cursor, Limit(v0.limit));
    if !page.hasMore {
      LastPage(visits, cursor, page);
    } else {
      var rest := Walk(visits[1..], page.next).value;
      WalkIsExact(visits[1..], page.next, rest);
      PageAndRest(visits, cursor, page, rest);
    }
  }

  lemma LastPage(visits: seq<Visit>, cursor: Option<Cursor>, page: Page)
    requires visits != [] && !page.hasMore && HasNextRows(visits[0].table, cursor, page)
    ensures IsExact(visits, cursor, page.items)
  {
    assert visits[0] in visits;
    forall r | IsBeyond(r, cursor) && PresentThroughout(r, visits) ensures HasRow(page.items, r) {
      assert HasRow(visits[0].table, r);
      var i :| 0 <= i < |visits[0].table| && SameKey(visits[0].table[i], r);
      var j :| 0 <= j < |page.items| && page.items[j] == visits[0].table[i];
    }
  }

  lemma PageAndRest(visits: seq<Visit>, cursor: Option<Cursor>, page: Page, rest: seq<Item>)
    requires visits != [] && page.hasMore && HasNextRows(visits[0].table, cursor, page)
    requires IsExact(visits[1..], page.next, rest)
    requires forall j :: 0 <= j < |rest| ==> IsBeyond(rest[j], cursor)
    ensures IsExact(visits, cursor, page.items + rest)
  {
    JoinPages(page.items, rest);
    forall i | 0 <= i < |page.items + rest|
      ensures IsBeyond((page.items + rest)[i], cursor) && IsFrom((page.items + rest)[i], visits)
    {
      JoinedRow(visits, cursor, page, rest, i);
    }
    forall r | IsBeyond(r, cursor) && PresentThroughout(r, visits) ensures HasRow(page.items + rest, r) {
      RowIsNowOrLater(visits, page, rest, r, cursor);
    }
  }

  ghost predicate IsFrom(row: Item, visits: seq<Visit>) {
    exists v :: v in visits && row in v.table
  }

  lemma JoinedRow(visits: seq<Visit>, cursor: Option<Cursor>, page: Page, rest: seq<Item>, i: nat)
    requires visits != [] && page.items != [] && page.next == Some(KeyOf(page.items[|page.items| - 1]))
    requires forall j :: 0 <= j < |page.items| ==> page.items[j] in visits[0].table && IsBeyond(page.items[j], cursor)
    requires forall j :: 0 <= j < |rest| ==> IsBeyond(rest[j], page.next) && IsFrom(rest[j], visits[1..])
    requires i < |page.items + rest|
    ensures IsBeyond((page.items + rest)[i], cursor) && IsFrom((page.items + rest)[i], visits)
  {
    var row := (page.items + rest)[i];
    if i >= |page.items| {
      assert row == rest[i - |page.items|];
      var v :| v in visits[1..] && row in v.table;
      assert v in visits;
    } else {
      assert visits[0] in visits;
    }
  }

  lemma JoinPages(page: seq<Item>, rest: seq<Item>)
    requires page != [] && Sorted(page) && Sorted(rest)
    requires forall i :: 0 <= i < |rest| ==> IsAfter(rest[i], KeyOf(page[|page| - 1]))
    ensures Sorted(page + rest)
  {
    var rows := page + rest;
    forall i, j | 0 <= i < j < |rows| ensures ItemLess(rows[i], rows[j]) {
      if i < |page| <= j {
        assert rows[j] == rest[j - |page|];
        assert i < |page| - 1 ==> ItemLess(page[i], page[|page| - 1]);
      } else if i >= |page| {
        assert rows[i] == rest[i - |page|] && rows[j] == rest[j - |page|];
      }
    }
  }

  lemma RowIsNowOrLater(visits: seq<Visit>, page: Page, rest: seq<Item>, r: Item, cursor: Option<Cursor>)
    requires visits != [] && IsBeyond(r, cursor) && PresentThroughout(r, visits)
    requires forall i :: 0 <= i < |visits[0].table| && IsBeyond(visits[0].table[i], cursor) ==>
      visits[0].table[i] in page.items || IsBeyond(visits[0].table[i], page.next)
    requires forall q :: IsBeyond(q, page.next) && PresentThroughout(q, visits[1..]) ==> HasRow(rest, q)
    ensures HasRow(page.items + rest, r)
  {
    var table := visits[0].table;
    assert visits[0] in visits;
    assert HasRow(table, r);
    var i :| 0 <= i < |table| && SameKey(table[i], r);
    if table[i] in page.items {
      var j :| 0 <= j < |page.items| && page.items[j] == table[i];
      assert SameKey((page.items + rest)[j], r);
    } else {
      assert IsBeyond(r, page.next) && PresentThroughout(r, visits[1..]);
      assert HasRow(rest, r);
      var j :| 0 <= j < |rest| && SameKey(rest[j], r);
      assert SameKey((page.items + rest)[|page.items| + j], r);
    }
  }

  /** Drift-free: however rows come and go between requests, a traversal from the beginning that ends
      with HasMore=false returns its rows in strictly increasing order of key, so no row twice, every
      one of them from a table it visited, and it misses no row that was there throughout. */
  lemma DriftFree(visits: seq<Visit>, rows: seq<Item>)
    requires AllSorted(visits) && Traverse(visits, "") == Some(rows)
    ensures forall i, j :: 0 <= i < j < |rows| ==> ItemLess(rows[i], rows[j]) && !SameKey(rows[i], rows[j])
    ensures forall i :: 0 <= i < |rows| ==> IsFrom(rows[i], visits)
    ensures forall r :: PresentThroughout(r, visits) ==> HasRow(rows, r)
  {
    FromTheBeginning(visits);
    WalkIsExact(visits, None, rows);
  }

  // ---- A table that does not change ----

  function PageCount(n: nat, limit: nat): nat
    requires limit > 0
  {
    if n <= limit then 1 else 1 + PageCount(n - limit, limit)
  }

  /** So many pages are needed to hold `n` rows, and one is returned even if there are none. */
  lemma {:induction false} PageCountIsCeiling(n: nat, limit: nat)
    requires limit > 0
    ensures var pages := PageCount(n, limit);
      pages >= 1 && n <= pages * limit && (pages > 1 ==> (pages - 1) * limit < n)
    decreases n
  {
    if n > limit {
      PageCountIsCeiling(n - limit, limit);
      OneMorePage(PageCount(n - limit, limit), limit);
    }
  }

  lemma OneMorePage(pages: nat, limit: nat)
    ensures (1 + pages) * limit == pages * limit + limit && (pages - 1) * limit == pages * limit - limit
  {
  }

  /** The same table and page size at every visit. */
  ghost predicate AllAre(visits: seq<Visit>, v: Visit) {
    forall i :: 0 <= i < |visits| ==> visits[i] == v
  }

  /** The cursor of a row finds the row after it. */
  lemma CursorFindsNext(table: seq<Item>, i: nat)
    requires Sorted(table) && i < |table|
    ensures StartIndex(table, Some(KeyOf(table[i]))) == i + 1
  {
    var c := Some(KeyOf(table[i]));
    StartSplits(table, c);
    assert !IsBeyond(table[i], c);
    if i + 1 < |table| {
      assert ItemLess(table[i], table[i + 1]);
      assert IsBeyond(table[i + 1], c);
    }
  }

  /** A page that does not reach the end is followed by one that starts where it stops. */
  lemma PagesAreAdjacent(table: seq<Item>, cursor: Option<Cursor>, limit: nat)
    requires Sorted(table) && limit > 0
    ensures StartIndex(table, cursor) <= |table|
    ensures var i, page := StartIndex(table, cursor), PageAt(table, cursor, limit);
      && (page.hasMore <==> |table| - i > limit)
      && (page.hasMore ==> page.items == table[i..i + limit] && StartIndex(table, page.next) == i + limit)
      && (!page.hasMore ==> page.items == table[i..])
  {
    StartIndexInRange(table, cursor);
    var i, page := StartIndex(table, cursor), PageAt(table, cursor, limit);
    if |table| - i > limit {
      CursorFindsNext(table, i + limit - 1);
      assert page.items[limit - 1] == table[i + limit - 1];
    }
  }

  /** One visit: the last page, or a full one and a cursor for the rows after it. */
  lemma FixedStep(visits: seq<Visit>, table: seq<Item>, limit: int, size: nat, cursor: Option<Cursor>, i: nat)
    requires Sorted(table) && visits != [] && visits[0] == Visit(table, limit) && IsPageSize(limit, size)
    requires i == StartIndex(table, cursor) <= |table|
    ensures |table| - i <= size && |visits| == 1 ==> Walk(visits, cursor) == Some(table[i..])
    ensures |table| - i > size ==>
      var next := PageAt(table, cursor, size).next;
      StartIndex(table, next) == i + size
      && (Walk(visits[1..], next) == Some(table[i + size..]) ==> Walk(visits, cursor) == Some(table[i..]))
  {
    PagesAreAdjacent(table, cursor, size);
    WalkStep(visits, cursor, PageAt(table, cursor, size));
    if |table| - i > size { CutAt(table, i, i + size); }
  }

  lemma {:induction false} WalkFixed(
      visits: seq<Visit>, table: seq<Item>, limit: int, size: nat, cursor: Option<Cursor>, i: nat)
    requires Sorted(table) && AllAre(visits, Visit(table, limit)) && i == StartIndex(table, cursor) <= |table|
    requires IsPageSize(limit, size) && |visits| == PageCount(|table| - i, size)
    ensures Walk(visits, cursor) == Some(table[i..])
    decreases |visits|
  {
    FixedStep(visits, table, limit, size, cursor, i);
    if |table| - i > size {
      WalkFixed(visits[1..], table, limit, size, PageAt(table, cursor, size).next, i + size);
    }
  }

  lemma CutAt(table: seq<Item>, i: nat, j: nat)
    requires i <= j <= |table|
    ensures table[i..] == table[i..j] + table[j..]
  {
  }

  lemma WalkStep(visits: seq<Visit>, cursor: Option<Cursor>, page: Page)
    requires visits != [] && page == PageAt(visits[0].table, cursor, Limit(visits[0].limit))
    ensures !page.hasMore && |visits| == 1 ==> Walk(visits, cursor) == Some(page.items)
    ensures page.hasMore && Walk(visits[1..], page.next).Some? ==>
      Walk(visits, cursor) == Some(page.items + Walk(visits[1..], page.next).value)
  {
  }

  /** On a table that does not change the traversal ends after as many pages as it takes to hold it,
      and returns exactly the table. */
  lemma {:induction false} FixedTable(visits: seq<Visit>, table: seq<Item>, limit: int, size: nat)
    requires Sorted(table) && AllAre(visits, Visit(table, limit))
    requires IsPageSize(limit, size) && |visits| == PageCount(|table|, size)
    ensures Traverse(visits, "") == Some(table)
  {
    FromTheBeginning(visits);
    FixedTableWalk(visits, table, limit, size);
  }

  lemma FromTheBeginning(visits: seq<Visit>)
    ensures Traverse(visits, "") == Walk(visits, None)
  {
    TraverseIsWalk(visits, "", None);
  }

  lemma FixedTableWalk(visits: seq<Visit>, table: seq<Item>, limit: int, size: nat)
    requires Sorted(table) && AllAre(visits, Visit(table, limit))
    requires IsPageSize(limit, size) && |visits| == PageCount(|table|, size)
    ensures Walk(visits, None) == Some(table)
  {
    WalkFixed(visits, table, limit, size, None, 0);
    assert table[0..] == table;
  }

  // ---- The code ----

  class KeysetPaginator {
    const items: seq<Item>

    constructor (items: seq<Item>)
      ensures this.items == items
    {
      this.items := items;
    }

    method FetchPage(cursorStr: string, limit: int) returns (r: FetchResult)
      ensures r == Fetch(items, cursorStr, limit)
      ensures r.Ok? && r.value.hasMore ==>
        |r.value.items| == if limit <= 0 then 10 else if limit <= 100 then limit else 100
    {
      PagesAreFull(items, cursorStr, limit, if limit <= 0 then 10 else if limit <= 100 then limit else 100);
      var pageSize := if limit <= 0 then 10 else limit;
      if pageSize > 100 {
        pageSize := 100;
      }
      var decoded := DecodeCursor(cursorStr);
      if decoded.Err? {
        return Err(decoded.error);
      }
      var page := RowsAfter(decoded.value, pageSize);
      return Ok(PagedResult(page.items, EncodeNext(page.next), page.hasMore));
    }

    /** The rest of `FetchPage`. */
    method RowsAfter(cursor: Option<Cursor>, pageSize: nat) returns (page: Page)
      ensures page == PageAt(items, cursor, pageSize)
    {
      var startIndex := 0;
      if cursor.Some? {
        startIndex := FirstAfter(cursor.value);
      }
      StartIndexInRange(items, cursor);
      var results: seq<Item> := [];
      var i := startIndex;
      while i < |items| && |results| < pageSize
        invariant startIndex <= i <= |items| && |results| <= pageSize
        invariant results == items[startIndex..i]
      {
        results := results + [items[i]];
        i := i + 1;
      }
      var hasMore := startIndex + |results| < |items|;
      var next := None;
      if |results| > 0 && hasMore {
        next := Some(KeyOf(results[|results| - 1]));
      }
      return Page(results, next, hasMore);
    }

    /** The search loop: the first row after the cursor, or the end. */
    method FirstAfter(cursor: Cursor) returns (startIndex: nat)
      ensures startIndex == StartIndex(items, Some(cursor))
    {
      startIndex := 0;
      var i := 0;
      while i < |items|
        invariant 0 <= i <= |items|
        invariant startIndex == if i == 0 then 0 else |items|
        invariant forall j :: 0 <= j < i ==> !IsAfter(items[j], cursor)
      {
        if IsAfter(items[i], cursor) {
          startIndex := i;
          break;
        }
        startIndex := |items|;
        i := i + 1;
      }
      StartIndexIsFirst(items, cursor);
    }
  }
}
