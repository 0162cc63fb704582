/** History and live stream: what a client sees of the stored log of a room it stays in. */
module HubHistory {
  import opened Common
  import opened Messages
  import opened HubSpec
  import opened HubInvariants
  import opened HubTheorems
  import HubEffects

  lemma RoomLogSave(ids: map<string, int>, t: Table, e: Entry, r: string)
    requires RowOk(ids, e) && Injective(ids) && r in ids
    ensures RoomLog(t + RowOf(e), ids[r]) == RoomLog(t, ids[r]) + if e.room == r then RowOf(e) else []
  {
    if e.row.Some? {
      assert (t + RowOf(e))[..|t|] == t;
    } else {
      assert t + RowOf(e) == t;
    }
  }

  lemma SavedPrefix(log: seq<Entry>, n: nat)
    requires 0 < n <= |log|
    ensures SavedRows(log[..n]) == SavedRows(log[..n - 1]) + RowOf(log[n - 1])
  {
    assert log[..n][..n - 1] == log[..n - 1];
  }

  /** A history event and what was saved to the room since it was sent meet without gap or overlap:
      together they are the tail of the room's log, and the history is the last 20 rows before them.
      In the client's own feed, the broadcasts before the history are older than it, the rest newer. */
  lemma HistoryMeetsLive(s: Hub, base: Table, c: ClientId, p: nat)
    requires Inv(s, base) && p < |Feed(s.logs, c)|
    requires Feed(s.logs, c)[p].Private? && Feed(s.logs, c)[p].event.History?
    ensures var Private(History(r, rows), at) := Feed(s.logs, c)[p];
            && at <= |s.logs.log| && r in s.store.roomIds
            && var all := RoomLog(s.store.table, s.store.roomIds[r]);
               var live := SavedIn(s.logs.log, r, at, |s.logs.log|);
               && |rows| + |live| <= |all|
               && all[|all| - |rows| - |live|..] == rows + live
               && (|rows| == HISTORY_LEN || |rows| + |live| == |all|)
               && (forall x, y :: x in rows && y in live ==> x.id < y.id)
               && (forall q :: 0 <= q < |Feed(s.logs, c)| && Feed(s.logs, c)[q].Live? ==>
                     (q < p ==> Feed(s.logs, c)[q].index < at) && (q > p ==> Feed(s.logs, c)[q].index >= at))
  {
    var f, log, ids := Feed(s.logs, c), s.logs.log, s.store.roomIds;
    var Private(History(r, rows), at) := f[p];
    assert ClientOk(s.logs, ids, base, c);
    assert HistoryItemOk(base, ids, log, f[p], c);
    HistoryTail(s, base, r, rows, at);
    forall q | 0 <= q < |f| && f[q].Live?
      ensures (q < p ==> f[q].index < at) && (q > p ==> f[q].index >= at)
    {
      assert q < p ==> After(f[q]) <= Stamp(f[p]);
      assert q > p ==> After(f[p]) <= Stamp(f[q]);
    }
  }

  lemma HistoryTail(s: Hub, base: Table, r: string, rows: Table, at: nat)
    requires StoreOk(s.store, s.logs.log, base) && r in s.store.roomIds && at <= |s.logs.log|
    requires rows == Page(TableAt(base, s.logs.log, at), s.store.roomIds[r], HISTORY_LEN, None)
    ensures var all, live := RoomLog(s.store.table, s.store.roomIds[r]), SavedIn(s.logs.log, r, at, |s.logs.log|);
            && |rows| + |live| <= |all|
            && all[|all| - |rows| - |live|..] == rows + live
            && (|rows| == HISTORY_LEN || |rows| + |live| == |all|)
            && (forall x, y :: x in rows && y in live ==> x.id < y.id)
  {
    var log, ids := s.logs.log, s.store.roomIds;
    var live, all := SavedIn(log, r, at, |log|), RoomLog(s.store.table, ids[r]);
    LogSince(s, base, r, at);
    TailOfSum(RoomLog(TableAt(base, log, at), ids[r]), rows, live, all);
    BeforeSorted(s.store.table, ids[r], None);
    TailSorted(all, rows, live);
  }

  /** The message table as it stood after the first n broadcasts. */
  function TableAt(base: Table, log: seq<Entry>, n: nat): Table
    requires n <= |log|
  {
    base + SavedRows(log[..n])
  }

  lemma RoomLogNext(ids: map<string, int>, base: Table, log: seq<Entry>, r: string, n: nat)
    requires RowsOk(ids, log) && Injective(ids) && r in ids && 0 < n <= |log|
    ensures RoomLog(TableAt(base, log, n), ids[r])
         == RoomLog(TableAt(base, log, n - 1), ids[r]) + if log[n - 1].room == r then RowOf(log[n - 1]) else []
  {
    SavedPrefix(log, n);
    assert TableAt(base, log, n) == TableAt(base, log, n - 1) + RowOf(log[n - 1]);
    assert RowOk(ids, log[n - 1]);
    RoomLogSave(ids, TableAt(base, log, n - 1), log[n - 1], r);
  }

  /** What the room's log gained between two log positions is what the entries between them saved. */
  lemma {:induction false} RoomLogSplit(
    ids: map<string, int>, base: Table, log: seq<Entry>, r: string, at: nat, n: nat)
    requires RowsOk(ids, log) && Injective(ids) && r in ids && at <= n <= |log|
    ensures RoomLog(TableAt(base, log, n), ids[r]) == RoomLog(TableAt(base, log, at), ids[r]) + SavedIn(log, r, at, n)
    decreases n
  {
    var was := RoomLog(TableAt(base, log, at), ids[r]);
    if at < n {
      var new_ := if log[n - 1].room == r then RowOf(log[n - 1]) else [];
      RoomLogSplit(ids, base, log, r, at, n - 1);
      RoomLogNext(ids, base, log, r, n);
      Assoc(was, SavedIn(log, r, at, n - 1), new_);
    } else {
      assert was + [] == was;
    }
  }

  lemma Assoc<T>(a: seq<T>, b: seq<T>, c: seq<T>)
    ensures (a + b) + c == a + (b + c)
  {}

  lemma TailOfSum(was: Table, rows: Table, live: Table, all: Table)
    requires rows == LastN(was, HISTORY_LEN) && all == was + live
    ensures |rows| + |live| <= |all| && all[|all| - |rows| - |live|..] == rows + live
    ensures |rows| == HISTORY_LEN || |rows| + |live| == |all|
  {}

  lemma TailSorted(all: Table, rows: Table, live: Table)
    requires Sorted(all) && |rows| + |live| <= |all| && all[|all| - |rows| - |live|..] == rows + live
    ensures forall x, y :: x in rows && y in live ==> x.id < y.id
  {
    var k := |all| - |rows| - |live|;
    forall i, j | 0 <= i < |rows| && 0 <= j < |live| ensures rows[i].id < live[j].id {
      assert rows[i] == all[k..][i] == all[k + i];
      assert live[j] == all[k..][|rows| + j] == all[k + |rows| + j];
    }
  }

  /** No UserLeft of c in room r from log position `at` on. */
  ghost predicate StaysIn(log: seq<Entry>, at: nat, c: ClientId, r: string) {
    forall i :: at <= i < |log| && log[i].room == r && log[i].event.UserLeft? ==> log[i].who != c
  }

  lemma {:induction false} StayerIsMember(log: seq<Entry>, at: nat, n: nat, c: ClientId, r: string)
    requires at <= n <= |log| && StaysIn(log, at, c, r) && c in Replay(log[..at], r)
    ensures c in Replay(log[..n], r)
    decreases n
  {
    if at < n {
      StayerIsMember(log, at, n - 1, c, r);
      assert log[..n][..n - 1] == log[..n - 1];
    }
  }

  /** The row of a live message of one room, if the item is one. */
  function LiveRow(log: seq<Entry>, x: Item, r: string): Table {
    if x.Live? && x.index < |log| && log[x.index].room == r then RowOf(log[x.index]) else []
  }

  /** The rows of the live messages of one room in a stretch of a client's feed. */
  function LiveRows(log: seq<Entry>, f: seq<Item>, r: string): Table {
    if f == [] then [] else LiveRows(log, f[..|f| - 1], r) + LiveRow(log, f[|f| - 1], r)
  }

  /** Log entry i saved a message to room r. */
  predicate SavesTo(log: seq<Entry>, i: int, r: string) {
    0 <= i < |log| && log[i].room == r && log[i].row.Some?
  }

  /** The rows saved to one room by the entries from position `at` up to n that c received. */
  function ReceivedIn(log: seq<Entry>, r: string, c: ClientId, at: nat, n: nat): Table
    requires n <= |log|
  {
    if n <= at then []
    else ReceivedIn(log, r, c, at, n - 1) + if Receives(log, n - 1, r, c) then RowOf(log[n - 1]) else []
  }

  predicate Receives(log: seq<Entry>, i: int, r: string, c: ClientId) {
    SavesTo(log, i, r) && c in log[i].delivered
  }

  predicate Within(log: seq<Entry>, f: seq<Item>, c: ClientId, p: nat, at: nat, n: nat) {
    p < |f| ==>
      && at <= Stamp(f[p]) && After(f[p]) <= n
      && (f[p].Live? && f[p].index < |log| ==> c in log[f[p].index].delivered)
  }

  predicate InOrder(f: seq<Item>, p: nat, q: nat) {
    p < q < |f| ==> After(f[p]) <= Stamp(f[q])
  }

  predicate Shown(log: seq<Entry>, f: seq<Item>, r: string, c: ClientId, i: nat) {
    Receives(log, i, r, c) ==> Live(i) in f
  }

  /** A stretch of c's feed in log order, from position `at` up to n, holding every saved entry of a
      room that c received. */
  ghost predicate Covers(log: seq<Entry>, f: seq<Item>, r: string, c: ClientId, at: nat, n: nat) {
    && (forall p: nat :: Within(log, f, c, p, at, n))
    && (forall p: nat, q: nat :: InOrder(f, p, q))
    && (forall i: nat :: at <= i < n ==> Shown(log, f, r, c, i))
  }

  lemma CoversInit(log: seq<Entry>, f: seq<Item>, r: string, c: ClientId, at: nat, n: nat, n': nat)
    requires at <= n <= |log| && Covers(log, f, r, c, at, n) && f != [] && at <= n' <= n
    requires f[|f| - 1] == Live(n') || (f[|f| - 1].Private? && n' == n)
    ensures Covers(log, f[..|f| - 1], r, c, at, n')
  {
    var g, last := f[..|f| - 1], |f| - 1;
    forall p: nat ensures Within(log, g, c, p, at, n') {
      assert Within(log, f, c, p, at, n) && InOrder(f, p, last);
    }
    forall p: nat, q: nat ensures InOrder(g, p, q) {
      assert InOrder(f, p, q);
    }
    forall i: nat | at <= i < n' ensures Shown(log, g, r, c, i) {
      assert Shown(log, f, r, c, i);
      if Receives(log, i, r, c) {
        var p :| 0 <= p < |f| && f[p] == Live(i);
        assert g[p] == Live(i);
      }
    }
  }

  lemma CoversFewer(log: seq<Entry>, f: seq<Item>, r: string, c: ClientId, at: nat, n: nat)
    requires at < n <= |log| && Covers(log, f, r, c, at, n)
    requires f == [] || (f[|f| - 1].Live? && f[|f| - 1].index != n - 1)
    ensures Covers(log, f, r, c, at, n - 1) && !Receives(log, n - 1, r, c)
  {
    var m := n - 1;
    forall p: nat ensures Within(log, f, c, p, at, m) {
      assert Within(log, f, c, p, at, n);
      if p < |f| {
        assert Within(log, f, c, |f| - 1, at, n) && InOrder(f, p, |f| - 1);
      }
    }
    forall p: nat | p < |f| ensures f[p] != Live(m) {
      assert Within(log, f, c, p, at, m);
    }
    assert Shown(log, f, r, c, m);
  }

  lemma CoversNothing(log: seq<Entry>, f: seq<Item>, r: string, c: ClientId, n: nat)
    requires n <= |log| && Covers(log, f, r, c, n, n) && (f != [] ==> f[|f| - 1].Live?)
    ensures f == []
  {
    assert f != [] ==> Within(log, f, c, |f| - 1, n, n);
  }

  lemma ShowsNext(log: seq<Entry>, f: seq<Item>, r: string, c: ClientId, at: nat, n: nat)
    requires at < n <= |log| && f != [] && f[|f| - 1] == Live(n - 1) && c in log[n - 1].delivered
    requires LiveRows(log, f[..|f| - 1], r) == ReceivedIn(log, r, c, at, n - 1)
    ensures LiveRows(log, f, r) == ReceivedIn(log, r, c, at, n)
  {
    assert LiveRows(log, f, r) == LiveRows(log, f[..|f| - 1], r) + LiveRow(log, f[|f| - 1], r);
    assert LiveRow(log, f[|f| - 1], r) == if Receives(log, n - 1, r, c) then RowOf(log[n - 1]) else [];
  }

  /** Such a stretch shows exactly the rows saved to the room in that part of the log and received. */
  lemma {:induction false} FeedShowsSaved(log: seq<Entry>, f: seq<Item>, r: string, c: ClientId, at: nat, n: nat)
    requires at <= n <= |log| && Covers(log, f, r, c, at, n)
    ensures LiveRows(log, f, r) == ReceivedIn(log, r, c, at, n)
    decreases n - at + |f|
  {
    if f != [] && f[|f| - 1].Private? {
      CoversInit(log, f, r, c, at, n, n);
      FeedShowsSaved(log, f[..|f| - 1], r, c, at, n);
      assert LiveRow(log, f[|f| - 1], r) == [];
    } else if at == n {
      CoversNothing(log, f, r, c, n);
    } else if f != [] && f[|f| - 1] == Live(n - 1) {
      CoversInit(log, f, r, c, at, n, n - 1);
      FeedShowsSaved(log, f[..|f| - 1], r, c, at, n - 1);
      assert Within(log, f, c, |f| - 1, at, n);
      ShowsNext(log, f, r, c, at, n);
    } else {
      CoversFewer(log, f, r, c, at, n);
      FeedShowsSaved(log, f, r, c, at, n - 1);
    }
  }

  /** The part of a feed queued from log position `at` on. */
  function From(f: seq<Item>, at: nat): seq<Item>
    decreases |f|
  {
    if f == [] || Stamp(f[0]) >= at then f else From(f[1..], at)
  }

  /** Everything before k is older than position `at`, and k is where the rest starts. */
  ghost predicate SplitsAt(f: seq<Item>, k: nat, at: nat) {
    && k <= |f| && From(f, at) == f[k..]
    && (forall p :: 0 <= p < k ==> Stamp(f[p]) < at)
    && (k < |f| ==> Stamp(f[k]) >= at)
  }

  lemma {:induction false} FromIs(f: seq<Item>, at: nat)
    ensures exists k: nat :: SplitsAt(f, k, at)
    decreases |f|
  {
    if f == [] || Stamp(f[0]) >= at {
      assert f[0..] == f;
      assert SplitsAt(f, 0, at);
    } else {
      var g := f[1..];
      FromIs(g, at);
      var k: nat :| SplitsAt(g, k, at);
      assert g[k..] == f[k + 1..];
      forall p | 0 <= p < k + 1 ensures Stamp(f[p]) < at {
        assert p > 0 ==> f[p] == g[p - 1];
      }
      assert SplitsAt(f, k + 1, at);
    }
  }

  /** The live messages of a room in a client's feed from some point on are exactly the rows saved
      to the room from then on, less those the client missed. */
  lemma FeedSince(log: seq<Entry>, f: seq<Item>, c: ClientId, taken: nat, r: string, at: nat)
    requires FeedOk(log, f, c, taken) && at <= |log|
    ensures LiveRows(log, From(f, at), r) == ReceivedIn(log, r, c, at, |log|)
  {
    FromIs(f, at);
    var g := From(f, at);
    var k: nat :| SplitsAt(f, k, at);
    forall p: nat ensures Within(log, g, c, p, at, |log|) {
      if p < |g| {
        assert g[p] == f[k + p] && (p > 0 ==> After(f[k]) <= Stamp(f[k + p]));
      }
    }
    forall p: nat, q: nat ensures InOrder(g, p, q) {
      if p < q < |g| {
        assert After(f[k + p]) <= Stamp(f[k + q]);
      }
    }
    forall i: nat | at <= i < |log| ensures Shown(log, g, r, c, i) {
      if Receives(log, i, r, c) {
        var p :| 0 <= p < |f| && f[p] == Live(i);
        assert g[p - k] == Live(i);
      }
    }
    FeedShowsSaved(log, g, r, c, at, |log|);
  }

  /** No saved message of room r from log position `at` on was dropped on its way to c. */
  ghost predicate NoneDropped(log: seq<Entry>, at: nat, c: ClientId, r: string) {
    forall i :: at <= i < |log| && SavesTo(log, i, r) ==> c in log[i].delivered
  }

  lemma {:induction false} AllReceived(log: seq<Entry>, r: string, c: ClientId, at: nat, n: nat)
    requires NoneDropped(log, at, c, r) && n <= |log|
    ensures ReceivedIn(log, r, c, at, n) == SavedIn(log, r, at, n)
  {
    if at < n {
      AllReceived(log, r, c, at, n - 1);
      assert SavesTo(log, n - 1, r) ==> Receives(log, n - 1, r, c);
    }
  }

  lemma JoinerIsMember(log: seq<Entry>, at: nat, c: ClientId, r: string)
    requires JustJoined(log, at, c, r)
    ensures c in Replay(log[..at], r)
  {
    assert log[..at][..at - 1] == log[..at - 1];
  }

  /** Entry j is c's own join of room r, and c has not left r since. */
  ghost predicate Stays(log: seq<Entry>, j: nat, c: ClientId, r: string) {
    JustJoined(log, j + 1, c, r) && StaysIn(log, j + 1, c, r)
  }

  lemma StayerIsAddressed(s: Hub, base: Table, j: nat, c: ClientId, r: string, i: nat)
    requires Inv(s, base) && Stays(s.logs.log, j, c, r)
    requires j <= i < |s.logs.log| && s.logs.log[i].room == r
    ensures c in s.logs.log[i].members
  {
    JoinerIsMember(s.logs.log, j + 1, c, r);
    StayerIsMember(s.logs.log, j + 1, i + 1, c, r);
    assert EntryOk(s.logs.log, i);
  }

  /** Within one membership, from the client's own join entry j on, whether or not a history was
      sent: every broadcast of the room is addressed to the client; its feed shows exactly the rows
      saved since, less those it missed; and if it missed none, the room's log is what it was at
      the join followed by what the feed shows, nothing missing or twice. */
  lemma MemberSeesWholeLog(init: Hub, acts: seq<Action>, c: ClientId, r: string, j: nat)
    requires Initial(init) && Legal(init, acts) && PlainRun(acts) && !Exec(init, acts).panicked
    requires Stays(Exec(init, acts).logs.log, j, c, r)
    ensures var log := Exec(init, acts).logs.log;
            forall i :: j <= i < |log| && log[i].room == r ==> c in log[i].members
    ensures var l := Exec(init, acts).logs;
            LiveRows(l.log, From(Feed(l, c), j + 1), r) == ReceivedIn(l.log, r, c, j + 1, |l.log|)
    ensures var s := Exec(init, acts);
            var log, ids := s.logs.log, s.store.roomIds;
            r in ids && NoneDropped(log, j + 1, c, r) ==>
              RoomLog(s.store.table, ids[r])
              == RoomLog(TableAt(init.store.table, log, j + 1), ids[r])
                 + LiveRows(log, From(Feed(s.logs, c), j + 1), r)
  {
    RunKeeps(init, acts);
    var s, base := Exec(init, acts), init.store.table;
    forall i | j <= i < |s.logs.log| && s.logs.log[i].room == r ensures c in s.logs.log[i].members {
      StayerIsAddressed(s, base, j, c, r, i);
    }
    assert ClientOk(s.logs, s.store.roomIds, base, c);
    FeedSince(s.logs.log, Feed(s.logs, c), c, Taken(s.logs, c), r, j + 1);
    if r in s.store.roomIds && NoneDropped(s.logs.log, j + 1, c, r) {
      AllReceived(s.logs.log, r, c, j + 1, |s.logs.log|);
      LogSince(s, base, r, j + 1);
    }
  }

  lemma LogSince(s: Hub, base: Table, r: string, at: nat)
    requires StoreOk(s.store, s.logs.log, base) && r in s.store.roomIds && at <= |s.logs.log|
    ensures RoomLog(s.store.table, s.store.roomIds[r])
         == RoomLog(TableAt(base, s.logs.log, at), s.store.roomIds[r]) + SavedIn(s.logs.log, r, at, |s.logs.log|)
  {
    RoomLogSplit(s.store.roomIds, base, s.logs.log, r, at, |s.logs.log|);
    assert s.logs.log[..|s.logs.log|] == s.logs.log;
  }

  /** A history is sent right after the client's own join entry, and holds the newest 20 rows that
      the room had at that entry. */
  lemma HistoryFollowsJoin(init: Hub, acts: seq<Action>, c: ClientId, r: string, rows: Table, at: nat)
    requires Initial(init) && Legal(init, acts) && PlainRun(acts) && !Exec(init, acts).panicked
    requires Private(History(r, rows), at) in Feed(Exec(init, acts).logs, c)
    ensures var s := Exec(init, acts);
            && JustJoined(s.logs.log, at, c, r) && r in s.store.roomIds
            && rows == LastN(RoomLog(TableAt(init.store.table, s.logs.log, at), s.store.roomIds[r]), HISTORY_LEN)
  {
    RunKeeps(init, acts);
    var s := Exec(init, acts);
    assert ClientOk(s.logs, s.store.roomIds, init.store.table, c);
    var p :| 0 <= p < |Feed(s.logs, c)| && Feed(s.logs, c)[p] == Private(History(r, rows), at);
    assert HistoryItemOk(init.store.table, s.store.roomIds, s.logs.log, Feed(s.logs, c)[p], c);
  }

  /** The room's log was `was` at some point, and what it gained since is what c's feed shows. */
  predicate GainedWhatIsShown(s: Hub, c: ClientId, r: string, at: nat, was: Table)
    requires r in s.store.roomIds
  {
    RoomLog(s.store.table, s.store.roomIds[r]) == was + LiveRows(s.logs.log, From(Feed(s.logs, c), at), r)
  }

  lemma JoinerSeesRest(init: Hub, acts: seq<Action>, c: ClientId, r: string, at: nat)
    requires Initial(init) && Legal(init, acts) && PlainRun(acts) && !Exec(init, acts).panicked
    requires JustJoined(Exec(init, acts).logs.log, at, c, r) && r in Exec(init, acts).store.roomIds
    requires var log := Exec(init, acts).logs.log; StaysIn(log, at, c, r) && NoneDropped(log, at, c, r)
    ensures var s := Exec(init, acts);
            GainedWhatIsShown(s, c, r, at, RoomLog(TableAt(init.store.table, s.logs.log, at), s.store.roomIds[r]))
  {
    MemberSeesWholeLog(init, acts, c, r, at - 1);
  }

  lemma HistoryAndRest(s: Hub, c: ClientId, r: string, rows: Table, at: nat, was: Table)
    requires r in s.store.roomIds && GainedWhatIsShown(s, c, r, at, was) && rows == LastN(was, HISTORY_LEN)
    ensures IsTail(rows + LiveRows(s.logs.log, From(Feed(s.logs, c), at), r),
                   RoomLog(s.store.table, s.store.roomIds[r]), |rows| < HISTORY_LEN)
  {
    TailOfSum(was, rows, LiveRows(s.logs.log, From(Feed(s.logs, c), at), r),
              RoomLog(s.store.table, s.store.roomIds[r]));
  }

  /** So a client that stays and misses nothing has, in its history and its live messages together,
      exactly the tail of the room's log, and all of it if the history was not cut at 20. */
  lemma HistoryThenLive(init: Hub, acts: seq<Action>, c: ClientId, r: string, rows: Table, at: nat)
    requires Initial(init) && Legal(init, acts) && PlainRun(acts) && !Exec(init, acts).panicked
    requires Private(History(r, rows), at) in Feed(Exec(init, acts).logs, c)
    requires var log := Exec(init, acts).logs.log; StaysIn(log, at, c, r) && NoneDropped(log, at, c, r)
    ensures var s := Exec(init, acts);
            && r in s.store.roomIds
            && IsTail(rows + LiveRows(s.logs.log, From(Feed(s.logs, c), at), r),
                      RoomLog(s.store.table, s.store.roomIds[r]), |rows| < HISTORY_LEN)
  {
    HistoryFollowsJoin(init, acts, c, r, rows, at);
    JoinerSeesRest(init, acts, c, r, at);
    var s := Exec(init, acts);
    HistoryAndRest(s, c, r, rows, at, RoomLog(TableAt(init.store.table, s.logs.log, at), s.store.roomIds[r]));
  }

  /** seen is the end of all, or, if `whole`, all of it. */
  predicate IsTail(seen: Table, all: Table, whole: bool) {
    |seen| <= |all| && all[|all| - |seen|..] == seen && (whole ==> seen == all)
  }

  // ---- Causes of broadcasts ----

  /** Broadcast i was made by step k, which accounts for it. */
  ghost predicate CausedBy(init: Hub, acts: seq<Action>, i: nat, k: nat) {
    && k < |acts| && i < |Exec(init, acts).logs.log|
    && |Exec(init, acts[..k]).logs.log| <= i < |Exec(init, acts[..k + 1]).logs.log|
    && HubEffects.Explains(Exec(init, acts[..k]), acts[k], Exec(init, acts).logs.log[i])
  }

  lemma CauseStays(init: Hub, acts: seq<Action>, i: nat, k: nat)
    requires acts != [] && CausedBy(init, acts[..|acts| - 1], i, k)
    ensures CausedBy(init, acts, i, k)
  {
    var pre := acts[..|acts| - 1];
    LogGrows(Exec(init, pre), acts[|acts| - 1]);
    assert pre[..k] == acts[..k] && pre[..k + 1] == acts[..k + 1];
  }

  /** In every run, each broadcast is what one step had to announce: a join or leave under the client's
      name at that moment, or a message with the text as said, the sender's name, and the id of the row
      it was saved as, if it was saved and the id could be read. */
  lemma {:induction false} EveryBroadcastHasItsCause(init: Hub, acts: seq<Action>, i: nat)
    requires Initial(init) && Legal(init, acts) && PlainRun(acts) && !Exec(init, acts).panicked
    requires i < |Exec(init, acts).logs.log|
    ensures exists k: nat :: CausedBy(init, acts, i, k)
  {
    assert acts != [];
    var last := |acts| - 1;
    var pre := acts[..last];
    if i < |Exec(init, pre).logs.log| {
      EveryBroadcastHasItsCause(init, pre, i);
      var k: nat :| CausedBy(init, pre, i, k);
      CauseStays(init, acts, i, k);
    } else {
      RunKeeps(init, pre);
      HubEffects.StepExplains(Exec(init, pre), init.store.table, acts[last], i);
      assert acts[..last + 1] == acts;
      assert CausedBy(init, acts, i, last);
    }
  }

  // ---- Events in the feed ----

  /** The event of a saved message of room r, if the item is one. */
  function LiveEvent(log: seq<Entry>, x: Item, r: string): seq<Event> {
    if x.Live? && x.index < |log| && log[x.index].room == r && log[x.index].row.Some? then [log[x.index].event] else []
  }

  /** The events of saved messages of one room in a stretch of a client's feed, as the client gets them. */
  function LiveEvents(log: seq<Entry>, f: seq<Item>, r: string): seq<Event> {
    if f == [] then [] else LiveEvents(log, f[..|f| - 1], r) + LiveEvent(log, f[|f| - 1], r)
  }

  /** One event per row, in the same order, each showing its row. */
  ghost predicate ShowAll(es: seq<Event>, r: string, rows: Table) {
    |es| == |rows| && forall k :: 0 <= k < |rows| ==> Shows(es[k], r, rows[k])
  }

  lemma {:induction false} EventsShowRows(ids: map<string, int>, log: seq<Entry>, f: seq<Item>, r: string)
    requires RowsOk(ids, log)
    ensures ShowAll(LiveEvents(log, f, r), r, LiveRows(log, f, r))
  {
    if f != [] {
      EventsShowRows(ids, log, f[..|f| - 1], r);
      var x := f[|f| - 1];
      if x.Live? && x.index < |log| && log[x.index].room == r {
        assert RowOk(ids, log[x.index]);
      }
    }
  }

  /** What a member sees, in the events themselves: from its own join on, the messages in its feed show,
      in order and one for one, exactly the rows saved to the room since, less those it missed; and if it
      missed none, they show exactly what the room's log has gained since the join. */
  lemma MemberIsShownWholeLog(init: Hub, acts: seq<Action>, c: ClientId, r: string, j: nat)
    requires Initial(init) && Legal(init, acts) && PlainRun(acts) && !Exec(init, acts).panicked
    requires Stays(Exec(init, acts).logs.log, j, c, r)
    ensures var l := Exec(init, acts).logs;
            ShowAll(LiveEvents(l.log, From(Feed(l, c), j + 1), r), r, ReceivedIn(l.log, r, c, j + 1, |l.log|))
    ensures var s := Exec(init, acts);
            var log, ids := s.logs.log, s.store.roomIds;
            r in ids && NoneDropped(log, j + 1, c, r) ==>
              var now, was := RoomLog(s.store.table, ids[r]), RoomLog(TableAt(init.store.table, log, j + 1), ids[r]);
              was <= now && ShowAll(LiveEvents(log, From(Feed(s.logs, c), j + 1), r), r, now[|was|..])
  {
    var s := Exec(init, acts);
    MemberSeesWholeLog(init, acts, c, r, j);
    RunKeeps(init, acts);
    EventsShowRows(s.store.roomIds, s.logs.log, From(Feed(s.logs, c), j + 1), r);
  }
}
