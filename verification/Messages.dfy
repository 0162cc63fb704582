/**
 The persisted message log: saving, the windowed query with its in-place
 reversal, walking the log page by page, and the REST history handler.
 */
module Messages {
  import opened Common

  datatype Row = Row(id: int, roomId: int, userId: int, body: string)

  type Table = seq<Row>

  /** AUTOINCREMENT order: the table lists rows by strictly increasing id. */
  predicate Sorted(t: Table) {
    forall i, j :: 0 <= i < j < |t| ==> t[i].id < t[j].id
  }

  predicate Precedes(row: Row, before: Option<int>) {
    before.None? || row.id < before.value
  }

  /** The rows of one room before a cursor, oldest first. */
  function Before(t: Table, room: int, before: Option<int>): Table {
    if t == [] then []
    else
      var last := t[|t| - 1];
      Before(t[..|t| - 1], room, before)
      + if last.roomId == room && Precedes(last, before) then [last] else []
  }

  /** The whole log of one room. */
  function RoomLog(t: Table, room: int): Table {
    Before(t, room, None)
  }

  /** What ListMessages promises: the newest `limit` rows before the cursor, in chronological order. */
  function Page(t: Table, room: int, limit: int, before: Option<int>): Table {
    LastN(Before(t, room, before), limit)
  }

  // ---- Facts about the filtered log ----

  lemma {:induction false} BeforeMember(t: Table, room: int, before: Option<int>, row: Row)
    ensures row in Before(t, room, before) <==> row in t && row.roomId == room && Precedes(row, before)
  {
    if t != [] {
      BeforeMember(t[..|t| - 1], room, before, row);
      assert t == t[..|t| - 1] + [t[|t| - 1]];
    }
  }

  lemma {:induction false} BeforeSorted(t: Table, room: int, before: Option<int>)
    requires Sorted(t)
    ensures Sorted(Before(t, room, before))
  {
    if t != [] {
      var init := t[..|t| - 1];
      BeforeSorted(init, room, before);
      var b := Before(init, room, before);
      forall i | 0 <= i < |b| ensures b[i].id < t[|t| - 1].id {
        BeforeMember(init, room, before, b[i]);
      }
    }
  }

  /** Narrowing the cursor keeps exactly the rows below it. */
  lemma {:induction false} BeforeCut(t: Table, room: int, before: Option<int>, k: nat)
    requires Sorted(t) && k < |Before(t, room, before)|
    ensures Before(t, room, Some(Before(t, room, before)[k].id)) == Before(t, room, before)[..k]
  {
    var b := Before(t, room, before);
    BeforeSorted(t, room, before);
    BeforeMember(t, room, before, b[k]);
    var init, last := t[..|t| - 1], t[|t| - 1];
    var b0 := Before(init, room, before);
    if k < |b0| {
      assert b[k] == b0[k];
      BeforeCut(init, room, before, k);
      BeforeMember(init, room, before, b0[k]);
    } else {
      assert b == b0 + [last];
      BeforeAllBelow(init, room, before, last.id);
    }
  }

  lemma {:induction false} BeforeAllBelow(t: Table, room: int, before: Option<int>, id: int)
    requires forall row :: row in t ==> row.id < id
    requires before.Some? ==> id < before.value
    ensures Before(t, room, Some(id)) == Before(t, room, before)
  {
    if t != [] {
      BeforeAllBelow(t[..|t| - 1], room, before, id);
      assert t[|t| - 1] in t;
    }
  }

  /** Rows appended later lie above every cursor taken from the older table. */
  lemma {:induction false} BeforeGrows(t: Table, u: Table, room: int, row: Row)
    requires Sorted(u) && t <= u && row in t
    ensures Before(u, room, Some(row.id)) == Before(t, room, Some(row.id))
  {
    if |t| < |u| {
      var v := u[..|u| - 1];
      BeforeGrows(t, v, room, row);
      var i :| 0 <= i < |t| && t[i] == row;
      assert u[i] == row && u[i].id < u[|u| - 1].id;
    } else {
      assert t == u;
    }
  }

  // ---- Walking the pages ----

  /** Successive states of the table: messages may be saved between two page requests. */
  ghost predicate Growing(tables: nat -> Table) {
    forall k: nat :: Grows(tables, k)
  }

  ghost predicate Grows(tables: nat -> Table, k: nat) {
    Sorted(tables(k)) && Sorted(tables(k + 1)) && tables(k) <= tables(k + 1)
  }

  lemma PageStep(tables: nat -> Table, k: nat, room: int, limit: int, before: Option<int>)
    requires Growing(tables) && limit != 0 && Before(tables(k), room, before) != []
    ensures var b := Before(tables(k), room, before);
            var page := Page(tables(k), room, limit, before);
            && page != []
            && Before(tables(k + 1), room, Some(page[0].id)) == b[..|b| - |page|]
  {
    var b := Before(tables(k), room, before);
    var page := Page(tables(k), room, limit, before);
    assert Grows(tables, k);
    BeforeCut(tables(k), room, before, |b| - |page|);
    BeforeMember(tables(k), room, before, page[0]);
    BeforeGrows(tables(k), tables(k + 1), room, page[0]);
  }

  /** A client that asks for older and older pages until one is empty, joining them oldest first. */
  ghost function Walk(tables: nat -> Table, k: nat, room: int, limit: int, before: Option<int>): Table
    requires Growing(tables)
    decreases |Before(tables(k), room, before)|
  {
    var page := Page(tables(k), room, limit, before);
    if page == [] then []
    else
      PageStep(tables, k, room, limit, before);
      Walk(tables, k + 1, room, limit, Some(page[0].id)) + page
  }

  /** Paging covers the log as it stood at the first request, each message exactly once. */
  lemma {:induction false} WalkCoversLog(tables: nat -> Table, k: nat, room: int, limit: int, before: Option<int>)
    requires Growing(tables)
    ensures Walk(tables, k, room, limit, before) == (if limit == 0 then [] else Before(tables(k), room, before))
    decreases |Before(tables(k), room, before)|
  {
    var b := Before(tables(k), room, before);
    if b != [] && limit != 0 {
      PageStep(tables, k, room, limit, before);
      var page := Page(tables(k), room, limit, before);
      WalkCoversLog(tables, k + 1, room, limit, Some(page[0].id));
      TailJoins(b, limit);
    }
  }

  lemma TailJoins(b: Table, limit: int)
    ensures b == b[..|b| - |LastN(b, limit)|] + LastN(b, limit)
  {}

  // ---- The REST handler ----

  function Reversed<T>(s: seq<T>): seq<T> {
    seq(|s|, i requires 0 <= i < |s| => s[|s| - 1 - i])
  }

  /** limit query parameter: 50 when absent, unreadable or not positive, capped at 100. */
  function HandlerLimit(requested: Option<int>): (limit: int)
    ensures 1 <= limit <= 100
    ensures requested.Some? && 1 <= requested.value <= 100 ==> limit == requested.value
    ensures requested.None? || requested.value < 1 ==> limit == 50
    ensures requested.Some? && requested.value > 100 ==> limit == 100
  {
    if requested.None? || requested.value <= 0 then 50
    else if requested.value <= 100 then requested.value
    else 100
  }

  function Cut(window: Table, limit: int): (Table, bool)
    requires 0 < limit
  {
    if |window| > limit then (window[..limit], true) else (window, false)
  }

  function HandlerPage(t: Table, room: int, limit: int, before: Option<int>): (Table, bool)
    requires 0 < limit
  {
    Cut(Page(t, room, limit + 1, before), limit)
  }

  /** has_more is exact, but a page that has more skips the newest row it should start from. */
  lemma HandlerPageIs(t: Table, room: int, limit: int, before: Option<int>)
    requires 0 < limit
    ensures var b := Before(t, room, before);
            var (page, more) := HandlerPage(t, room, limit, before);
            && (more <==> |b| > limit)
            && page == (if more then b[|b| - limit - 1..|b| - 1] else b)
  {}

  /** The page holds the newest `limit` rows, in any order, exactly when nothing more remains. */
  lemma HandlerPageNewestIff(t: Table, room: int, limit: int, before: Option<int>)
    requires Sorted(t) && 0 < limit
    ensures HandlerPage(t, room, limit, before).0 == Page(t, room, limit, before)
            <==> |Before(t, room, before)| <= limit
  {
    var b := Before(t, room, before);
    HandlerPageIs(t, room, limit, before);
    BeforeSorted(t, room, before);
    if |b| > limit {
      assert HandlerPage(t, room, limit, before).0[limit - 1] == b[|b| - 2];
      assert Page(t, room, limit, before)[limit - 1] == b[|b| - 1];
    }
  }

  /** The documented page, the newest `limit` rows with the newest first, is what is served exactly
      when at most one row precedes the cursor. */
  lemma DocumentedPageIff(t: Table, room: int, limit: int, before: Option<int>)
    requires Sorted(t) && 0 < limit
    ensures HandlerPage(t, room, limit, before).0 == Reversed(Page(t, room, limit, before))
            <==> |Before(t, room, before)| <= 1
  {
    BeforeSorted(t, room, before);
    HandlerPageIs(t, room, limit, before);
    CutIsReversedIff(Before(t, room, before), limit);
  }

  lemma CutIsReversedIff(b: Table, limit: int)
    requires Sorted(b) && 0 < limit
    ensures (if |b| > limit then b[|b| - limit - 1..|b| - 1] else b) == Reversed(LastN(b, limit)) <==> |b| <= 1
  {
    var page, promised := if |b| > limit then b[|b| - limit - 1..|b| - 1] else b, LastN(b, limit);
    if |b| > 1 {
      assert Reversed(promised)[0] == promised[|promised| - 1] == b[|b| - 1];
      assert page[0] == b[if |b| > limit then |b| - limit - 1 else 0];
    }
  }

  /** The documented next cursor is the last id of the page, which assumes newest-first pages. On the
      pages as served it moves past two rows only: all of this page but its last row lies before it. */
  lemma DocumentedCursorBarelyMoves(t: Table, room: int, limit: int, before: Option<int>)
    requires Sorted(t) && 0 < limit < |Before(t, room, before)|
    ensures var b := Before(t, room, before);
            var page := HandlerPage(t, room, limit, before).0;
            && |page| == limit
            && Before(t, room, Some(page[limit - 1].id)) == b[..|b| - 2]
            && (forall k :: 0 <= k < limit - 1 ==> page[k] in Before(t, room, Some(page[limit - 1].id)))
  {
    var b := Before(t, room, before);
    var page := HandlerPage(t, room, limit, before).0;
    HandlerPageIs(t, room, limit, before);
    assert page[limit - 1] == b[|b| - 2];
    BeforeCut(t, room, before, |b| - 2);
    forall k | 0 <= k < limit - 1 ensures page[k] in b[..|b| - 2] {
      assert page[k] == b[..|b| - 2][|b| - limit - 1 + k];
    }
  }

  lemma BeforeOfTwo(older: Row, newer: Row)
    requires older.roomId == newer.roomId
    ensures Before([older, newer], older.roomId, None) == [older, newer]
  {
    assert [older, newer][..1] == [older] && [older][..0] == [];
    assert Before([older], older.roomId, None) == [older];
  }

  /** Two messages: asked for one, the handler returns the older; asked for two, the older first. */
  lemma HandlerSkipsNewest(older: Row, newer: Row)
    requires older.id < newer.id && older.roomId == newer.roomId
    ensures var t, room := [older, newer], older.roomId;
            && Page(t, room, 1, None) == [newer] && HandlerPage(t, room, 1, None) == ([older], true)
            && Reversed(Page(t, room, 2, None)) == [newer, older]
            && HandlerPage(t, room, 2, None) == ([older, newer], false)
  {
    BeforeOfTwo(older, newer);
    assert LastN([older, newer], 1) == [newer] && LastN([older, newer], 2) == [older, newer];
    HandlerPageIs([older, newer], older.roomId, 1, None);
    HandlerPageIs([older, newer], older.roomId, 2, None);
  }

  /** A client that follows has_more, each time asking for rows before the oldest one it holds. */
  ghost function HandlerWalk(t: Table, room: int, limit: int, before: Option<int>): Table
    requires Sorted(t) && 0 < limit
    decreases |Before(t, room, before)|
  {
    var (page, more) := HandlerPage(t, room, limit, before);
    HandlerPageIs(t, room, limit, before);
    if !more then page
    else
      BeforeCut(t, room, before, |Before(t, room, before)| - limit - 1);
      HandlerWalk(t, room, limit, Some(page[0].id)) + page
  }

  /** How many of n rows such a client never sees: one per page that has a successor. */
  function Lost(n: nat, limit: nat): nat {
    if n <= limit then 0 else 1 + Lost(n - limit - 1, limit)
  }

  lemma {:induction false} LostIs(n: nat, limit: nat)
    ensures Lost(n, limit) == n / (limit + 1)
  {
    QuotientStep(n, limit + 1);
    if n > limit {
      LostIs(n - limit - 1, limit);
    }
  }

  /** n rows yield n - n / (limit + 1), so all of them only when they fit on one page. */
  lemma HandlerWalkLoses(t: Table, room: int, limit: int, before: Option<int>)
    requires Sorted(t) && 0 < limit
    ensures var n := |Before(t, room, before)|;
            |HandlerWalk(t, room, limit, before)| == n - n / (limit + 1)
    ensures HandlerWalk(t, room, limit, before) == Before(t, room, before)
            <==> |Before(t, room, before)| <= limit
  {
    var n := |Before(t, room, before)|;
    HandlerWalkCount(t, room, limit, before);
    LostIs(n, limit);
    if n <= limit {
      HandlerWalkEnd(t, room, limit, before);
    }
  }

  lemma {:induction false} HandlerWalkCount(t: Table, room: int, limit: int, before: Option<int>)
    requires Sorted(t) && 0 < limit
    ensures var n := |Before(t, room, before)|;
            |HandlerWalk(t, room, limit, before)| == n - Lost(n, limit)
    decreases |Before(t, room, before)|
  {
    var n := |Before(t, room, before)|;
    if n > limit {
      var next := Some(HandlerPage(t, room, limit, before).0[0].id);
      HandlerWalkStep(t, room, limit, before);
      HandlerWalkCount(t, room, limit, next);
      LostStep(n, limit, |HandlerWalk(t, room, limit, next)|);
    } else {
      HandlerWalkEnd(t, room, limit, before);
    }
  }

  lemma LostStep(n: nat, limit: nat, rest: int)
    requires n > limit && rest == n - limit - 1 - Lost(n - limit - 1, limit)
    ensures rest + limit == n - Lost(n, limit)
  {}

  lemma HandlerWalkEnd(t: Table, room: int, limit: int, before: Option<int>)
    requires Sorted(t) && 0 < limit && |Before(t, room, before)| <= limit
    ensures HandlerWalk(t, room, limit, before) == Before(t, room, before)
  {
    HandlerPageIs(t, room, limit, before);
  }

  lemma HandlerWalkStep(t: Table, room: int, limit: int, before: Option<int>)
    requires Sorted(t) && 0 < limit < |Before(t, room, before)|
    ensures var page := HandlerPage(t, room, limit, before).0;
            && |page| == limit
            && |Before(t, room, Some(page[0].id))| == |Before(t, room, before)| - limit - 1
            && |HandlerWalk(t, room, limit, before)| == |HandlerWalk(t, room, limit, Some(page[0].id))| + limit
  {
    HandlerPageIs(t, room, limit, before);
    BeforeCut(t, room, before, |Before(t, room, before)| - limit - 1);
  }

  /** n / d counts how often d can be taken from n. */
  lemma QuotientStep(n: int, d: int)
    requires 0 < d
    ensures 0 <= n < d ==> n / d == 0
    ensures n / d == (n - d) / d + 1
    ensures d <= n ==> n / d >= 1
  {
    if 0 <= n < d {
      MultipleBounds(d, n / d);
    }
    var e := n / d - 1 - (n - d) / d;
    assert d * e == (n - d) % d - n % d by {
      assert d * (n / d) == n - n % d;
      assert d * ((n - d) / d) == n - d - (n - d) % d;
    }
    MultipleBounds(d, e);
  }

  lemma MultipleBounds(d: int, e: int)
    requires 0 < d
    ensures e >= 1 ==> d * e >= d
    ensures e <= -1 ==> d * e <= -d
  {}

  // ---- The store ----

  class MessageStore {
    var table: Table
    var nextId: int

    ghost predicate Valid()
      reads this
    {
      Sorted(table) && forall i :: 0 <= i < |table| ==> table[i].id < nextId
    }

    constructor ()
      ensures Valid() && table == []
    {
      table, nextId := [], 1;
    }

    /** Appends a row under a fresh, larger id, or fails and changes nothing. If the new id cannot
        be read, the caller gets an error although the row is stored. */
    method SaveMessage(roomId: int, userId: int, body: string, insertFails: bool, idFails: bool)
      returns (r: Result<int, string>)
      requires Valid()
      modifies this
      ensures Valid()
      ensures r == if insertFails || idFails then Err("insert message") else Ok(old(nextId))
      ensures insertFails ==> table == old(table) && nextId == old(nextId)
      ensures !insertFails ==> table == old(table) + [Row(old(nextId), roomId, userId, body)]
      ensures !insertFails ==> nextId == old(nextId) + 1 && forall row :: row in old(table) ==> row.id < old(nextId)
    {
      r := Err("insert message");
      if !insertFails {
        if !idFails {
          r := Ok(nextId);
        }
        table := table + [Row(nextId, roomId, userId, body)];
        nextId := nextId + 1;
      }
    }

    /** The query: rows of the room before the cursor, newest first, up to the limit. */
    method QueryNewestFirst(roomId: int, limit: int, beforeId: Option<int>) returns (rows: seq<Row>)
      requires Valid()
      ensures Reversed(rows) == Page(table, roomId, limit, beforeId)
    {
      rows := [];
      var k := |table|;
      ScanStarts(table, roomId, beforeId);
      while k > 0 && (limit < 0 || |rows| < limit)
        invariant 0 <= k <= |table|
        invariant limit >= 0 ==> |rows| <= limit
        invariant Scanned(table, k, roomId, beforeId, rows)
      {
        k := k - 1;
        ScanStep(table, k, roomId, beforeId, rows);
        if table[k].roomId == roomId && Precedes(table[k], beforeId) {
          rows := rows + [table[k]];
        }
      }
      ScanEnds(table, k, roomId, limit, beforeId, rows);
    }

    /** The slice built from the query is reversed in place, so it ends up oldest first. */
    method ListMessages(roomId: int, limit: int, beforeId: Option<int>) returns (messages: array<Row>)
      requires Valid()
      ensures fresh(messages)
      ensures messages[..] == Page(table, roomId, limit, beforeId)
    {
      var rows := QueryNewestFirst(roomId, limit, beforeId);
      messages := new Row[|rows|](i requires 0 <= i < |rows| => rows[i]);
      assert messages[..] == rows;
      ReverseInPlace(messages);
    }
  }

  /** rows holds, newest first, the matching rows from position k of the table on. */
  ghost predicate Scanned(t: Table, k: nat, room: int, before: Option<int>, rows: Table)
    requires k <= |t|
  {
    Before(t, room, before) == Before(t[..k], room, before) + Reversed(rows)
  }

  lemma ScanStarts(t: Table, room: int, before: Option<int>)
    ensures Scanned(t, |t|, room, before, [])
  {
    assert t[..|t|] == t;
  }

  lemma ScanStep(t: Table, k: nat, room: int, before: Option<int>, rows: Table)
    requires k < |t| && Scanned(t, k + 1, room, before, rows)
    ensures Scanned(t, k, room, before, if t[k].roomId == room && Precedes(t[k], before) then rows + [t[k]] else rows)
  {
    assert t[..k + 1][..k] == t[..k];
    assert Reversed(rows + [t[k]]) == [t[k]] + Reversed(rows);
  }

  lemma ScanEnds(t: Table, k: nat, room: int, limit: int, before: Option<int>, rows: Table)
    requires k <= |t| && Scanned(t, k, room, before, rows)
    requires (limit >= 0 ==> |rows| <= limit) && (k == 0 || |rows| == limit)
    ensures Reversed(rows) == Page(t, room, limit, before)
  {}

  method ReverseInPlace(a: array<Row>)
    modifies a
    ensures a[..] == Reversed(old(a[..]))
  {
    var n := a.Length;
    for i := 0 to n / 2
      invariant forall k :: 0 <= k < i ==> a[k] == old(a[n - 1 - k]) && a[n - 1 - k] == old(a[k])
      invariant forall k :: i <= k < n - i ==> a[k] == old(a[k])
    {
      a[i], a[n - 1 - i] := a[n - 1 - i], a[i];
    }
  }

  /** Keeps the first `limit` rows of a window, and tells whether there were more. */
  method CutWindow(messages: array<Row>, limit: int) returns (page: seq<Row>, hasMore: bool)
    requires 0 < limit
    ensures (page, hasMore) == Cut(messages[..], limit)
  {
    hasMore := messages.Length > limit;
    page := messages[..];
    if hasMore {
      page := page[..limit];
    }
  }

  /** GET /api/rooms/:id/messages: fetches one row more than asked, to learn whether more exist. */
  method GetMessages(store: MessageStore, roomId: int, requested: Option<int>, beforeId: Option<int>, listFails: bool)
    returns (r: Result<(Table, bool), string>)
    requires store.Valid()
    ensures r.Err? <==> listFails
    ensures r.Ok? ==> r.value == HandlerPage(store.table, roomId, HandlerLimit(requested), beforeId)
  {
    var limit := 50;
    if requested.Some? {
      if requested.value > 0 && requested.value <= 100 {
        limit := requested.value;
      } else if requested.value > 100 {
        limit := 100;
      }
    }
    if listFails {
      r := Err("internal server error");
    } else {
      var messages := store.ListMessages(roomId, limit + 1, beforeId);
      var page, hasMore := CutWindow(messages, limit);
      r := Ok((page, hasMore));
    }
  }
}
