/** What every step of the hub keeps. */
module HubInvariants {
  import opened Common
  import opened Messages
  import opened HubSpec

  // ---- Reading the broadcast log ----

  /** A room's members after one more broadcast in it, read off the broadcast itself. */
  function Apply(cs: set<ClientId>, e: Event, who: ClientId): set<ClientId> {
    match e
    case UserJoined(_, _) => cs + {who}
    case UserLeft(_, _) => cs - {who}
    case _ => cs
  }

  /** The members of a room, replayed from the joins and leaves in the log alone. */
  function Replay(log: seq<Entry>, r: string): set<ClientId> {
    if log == [] then {}
    else
      var last := log[|log| - 1];
      var cs := Replay(log[..|log| - 1], r);
      if last.room == r then Apply(cs, last.event, last.who) else cs
  }

  function RowOf(e: Entry): Table {
    if e.row.Some? then [e.row.value] else []
  }

  /** The rows saved by logged messages, in log order. */
  function SavedRows(log: seq<Entry>): Table {
    if log == [] then [] else SavedRows(log[..|log| - 1]) + RowOf(log[|log| - 1])
  }

  /** The rows saved to one room by the log entries from position `at` up to n. */
  function SavedIn(log: seq<Entry>, r: string, at: nat, n: nat): Table
    requires n <= |log|
  {
    if n <= at then []
    else SavedIn(log, r, at, n - 1) + if log[n - 1].room == r then RowOf(log[n - 1]) else []
  }

  function After(x: Item): nat {
    if x.Live? then x.index + 1 else x.at
  }

  function Stamp(x: Item): nat {
    if x.Live? then x.index else x.at
  }

  /** How many items of a feed were queued before broadcast i. */
  function Queued(f: seq<Item>, i: nat): nat {
    if f == [] then 0
    else Queued(f[..|f| - 1], i) + if After(f[|f| - 1]) <= i then 1 else 0
  }

  /** How many items client c had taken when broadcast i was made. */
  function TakenAt(log: seq<Entry>, c: ClientId, i: nat): nat
    requires i < |log|
  {
    Get(log[i].taken, c, 0)
  }

  /** Client c's queue had room when broadcast i was made. */
  predicate HadRoom(log: seq<Entry>, f: seq<Item>, c: ClientId, i: nat)
    requires i < |log|
  {
    Queued(f, i) - TakenAt(log, c, i) < QUEUE_CAP
  }

  // ---- The invariant ----

  /** The two indexes agree about one pair. */
  predicate Agrees(m: Membership, c: ClientId, r: string) {
    c in MembersOf(m, r) <==> r in RoomsOf(m, c)
  }

  /** The two indexes hold one relation, and no stored room is empty. */
  ghost predicate IndexOk(m: Membership) {
    && (forall c, r :: Agrees(m, c, r))
    && (forall r :: r in m.rooms ==> m.rooms[r] != {})
  }

  /** One broadcast went to the members that the log itself implies, less the slow ones. */
  predicate EntryOk(log: seq<Entry>, i: nat)
    requires i < |log|
  {
    log[i].members == Replay(log[..i + 1], log[i].room) && log[i].delivered <= log[i].members
  }

  ghost predicate LogOk(log: seq<Entry>) {
    forall i: nat :: i < |log| ==> EntryOk(log, i)
  }

  /** One client's feed: bounded queue, log order, and exactly the broadcasts delivered to it. */
  ghost predicate FeedOk(log: seq<Entry>, f: seq<Item>, c: ClientId, taken: nat) {
    && taken <= |f| <= taken + QUEUE_CAP
    && (forall p :: 0 <= p < |f| ==> After(f[p]) <= |log|)
    && (forall p, q :: 0 <= p < q < |f| ==> After(f[p]) <= Stamp(f[q]))
    && (forall i :: 0 <= i < |log| ==> (c in log[i].delivered <==> Live(i) in f))
  }

  /** Broadcast i went to c exactly if c was a member whose queue had room; what c had taken by
      then was no more than was queued, and taking only goes on. */
  predicate DropOk(log: seq<Entry>, f: seq<Item>, c: ClientId, taken: nat, i: nat) {
    i < |log| ==>
      && (c in log[i].delivered <==> c in log[i].members && HadRoom(log, f, c, i))
      && TakenAt(log, c, i) <= Queued(f, i) <= TakenAt(log, c, i) + QUEUE_CAP
      && TakenAt(log, c, i) <= taken
  }

  predicate TakenInOrder(log: seq<Entry>, c: ClientId, i: nat, j: nat) {
    i <= j < |log| ==> TakenAt(log, c, i) <= TakenAt(log, c, j)
  }

  /** One client's share of every broadcast. */
  ghost predicate DropsOk(log: seq<Entry>, f: seq<Item>, c: ClientId, taken: nat) {
    && (forall i: nat :: DropOk(log, f, c, taken, i))
    && (forall i: nat, j: nat :: TakenInOrder(log, c, i, j))
  }

  /** The entry just before position `at` is c's own join of room r. */
  predicate JustJoined(log: seq<Entry>, at: nat, c: ClientId, r: string) {
    0 < at <= |log| && log[at - 1].room == r && log[at - 1].who == c && log[at - 1].event.UserJoined?
  }

  /** A history sent is the tail of the room's log as stored at that point, sent right after the join. */
  predicate HistoryItemOk(base: Table, ids: map<string, int>, log: seq<Entry>, x: Item, c: ClientId) {
    x.Private? && x.event.History? ==>
      && x.at <= |log|
      && x.event.room in ids
      && JustJoined(log, x.at, c, x.event.room)
      && x.event.messages == Page(base + SavedRows(log[..x.at]), ids[x.event.room], HISTORY_LEN, None)
  }

  ghost predicate HistoryOk(base: Table, ids: map<string, int>, log: seq<Entry>, f: seq<Item>, c: ClientId) {
    forall p :: 0 <= p < |f| ==> HistoryItemOk(base, ids, log, f[p], c)
  }

  ghost predicate ClientOk(l: Logs, ids: map<string, int>, base: Table, c: ClientId) {
    && FeedOk(l.log, Feed(l, c), c, Taken(l, c))
    && HistoryOk(base, ids, l.log, Feed(l, c), c)
    && DropsOk(l.log, Feed(l, c), c, Taken(l, c))
  }

  ghost predicate LogsOk(l: Logs, ids: map<string, int>, base: Table) {
    LogOk(l.log) && forall c: ClientId :: ClientOk(l, ids, base, c)
  }

  predicate Replayed(m: Membership, log: seq<Entry>, r: string) {
    MembersOf(m, r) == Replay(log, r)
  }

  /** The current members are those that the log implies. */
  ghost predicate CurrentOk(m: Membership, log: seq<Entry>) {
    forall r :: Replayed(m, log, r)
  }

  /** The event shows the row: the same text in the same room, under the row's id, or 0 if the id could
      not be read. */
  predicate Shows(e: Event, r: string, row: Row) {
    e.RoomMessage? && e.room == r && e.text == row.body && (e.id == row.id || e.id == 0)
  }

  /** A saved row is stored under the id of the room it was sent to and shown by its event; a message
      without a row has id 0. */
  predicate RowOk(ids: map<string, int>, e: Entry) {
    && (e.event.RoomMessage? && e.row.None? ==> e.event.id == 0)
    && (e.row.Some? ==>
          Shows(e.event, e.room, e.row.value) && e.room in ids && e.row.value.roomId == ids[e.room])
  }

  ghost predicate RowsOk(ids: map<string, int>, log: seq<Entry>) {
    forall i :: 0 <= i < |log| ==> RowOk(ids, log[i])
  }

  /** The table is what it was at the start followed by what the logged messages saved. */
  ghost predicate StoreOk(t: Stored, log: seq<Entry>, base: Table) {
    t.table == base + SavedRows(log) && TableOk(t.table, t.nextId) && RowsOk(t.roomIds, log) && Injective(t.roomIds)
  }

  ghost predicate Inv(s: Hub, base: Table) {
    && IndexOk(s.mem)
    && LogsOk(s.logs, s.store.roomIds, base)
    && CurrentOk(s.mem, s.logs.log)
    && StoreOk(s.store, s.logs.log, base)
  }

  lemma InitialInv(s: Hub)
    requires Initial(s)
    ensures Inv(s, s.store.table)
  {}

  // ---- Appending to the log and the feeds ----

  /** After a broadcast only the replay of its own room has moved. */
  lemma ReplayAppend(log: seq<Entry>, e: Entry, r: string)
    ensures Replay(log + [e], r) == if e.room == r then Apply(Replay(log, r), e.event, e.who) else Replay(log, r)
    ensures SavedRows(log + [e]) == SavedRows(log) + RowOf(e)
  {
    assert (log + [e])[..|log|] == log;
  }

  lemma LogOkAppend(log: seq<Entry>, e: Entry)
    requires LogOk(log) && e.delivered <= e.members
    requires e.members == Apply(Replay(log, e.room), e.event, e.who)
    ensures LogOk(log + [e])
  {
    var log' := log + [e];
    forall i: nat | i < |log'| ensures EntryOk(log', i) {
      if i < |log| {
        assert EntryOk(log, i);
        assert log'[..i + 1] == log[..i + 1];
      } else {
        assert log'[..i + 1] == log';
        ReplayAppend(log, e, e.room);
      }
    }
  }

  lemma FeedOkPrivate(log: seq<Entry>, f: seq<Item>, c: ClientId, taken: nat, e: Event)
    requires FeedOk(log, f, c, taken) && |f| < taken + QUEUE_CAP
    ensures FeedOk(log, f + [Private(e, |log|)], c, taken)
  {}

  lemma FeedOkBroadcast(log: seq<Entry>, f: seq<Item>, c: ClientId, taken: nat, e: Entry)
    requires FeedOk(log, f, c, taken)
    requires c in e.delivered ==> |f| < taken + QUEUE_CAP
    ensures FeedOk(log + [e], f + (if c in e.delivered then [Live(|log|)] else []), c, taken)
  {}

  lemma QueuedAppend(f: seq<Item>, x: Item, i: nat)
    ensures Queued(f + [x], i) == Queued(f, i) + if After(x) <= i then 1 else 0
  {
    assert (f + [x])[..|f|] == f;
  }

  lemma {:induction false} QueuedAll(f: seq<Item>, n: nat)
    requires forall p :: 0 <= p < |f| ==> After(f[p]) <= n
    ensures Queued(f, n) == |f|
  {
    if f != [] {
      QueuedAll(f[..|f| - 1], n);
    }
  }

  lemma DropsOkPush(log: seq<Entry>, f: seq<Item>, c: ClientId, taken: nat, x: Item)
    requires DropsOk(log, f, c, taken) && After(x) >= |log|
    ensures DropsOk(log, f + [x], c, taken)
  {
    forall i: nat ensures DropOk(log, f + [x], c, taken, i) {
      assert DropOk(log, f, c, taken, i);
      QueuedAppend(f, x, i);
    }
  }

  lemma DropsOkTake(log: seq<Entry>, f: seq<Item>, c: ClientId, taken: nat)
    requires DropsOk(log, f, c, taken)
    ensures DropsOk(log, f, c, taken + 1)
  {
    var taken' := taken + 1;
    forall i: nat ensures DropOk(log, f, c, taken', i) {
      assert DropOk(log, f, c, taken, i);
    }
  }

  lemma DropsOkLog(log: seq<Entry>, f: seq<Item>, c: ClientId, taken: nat, e: Entry)
    requires FeedOk(log, f, c, taken) && DropsOk(log, f, c, taken)
    requires Get(e.taken, c, 0) == taken && (c in e.delivered <==> c in e.members && |f| - taken < QUEUE_CAP)
    ensures DropsOk(log + [e], f, c, taken)
  {
    var log' := log + [e];
    QueuedAll(f, |log|);
    forall i: nat ensures DropOk(log', f, c, taken, i) {
      assert DropOk(log, f, c, taken, i);
    }
    forall i: nat, j: nat ensures TakenInOrder(log', c, i, j) {
      assert TakenInOrder(log, c, i, j) && DropOk(log, f, c, taken, i);
    }
  }

  lemma HistoryOkBroadcast(
    base: Table, ids: map<string, int>, log: seq<Entry>, f: seq<Item>, c: ClientId, e: Entry, tail: seq<Item>)
    requires HistoryOk(base, ids, log, f, c)
    requires tail == [] || tail == [Live(|log|)]
    ensures HistoryOk(base, ids, log + [e], f + tail, c)
  {
    var f' := f + tail;
    forall p | 0 <= p < |f'| ensures HistoryItemOk(base, ids, log + [e], f'[p], c) {
      if p < |f| {
        assert HistoryItemOk(base, ids, log, f[p], c);
        if f[p].Private? && f[p].event.History? {
          assert (log + [e])[..f[p].at] == log[..f[p].at];
        }
      }
    }
  }

  // ---- Sends and broadcasts, on the logs alone ----

  lemma PushKeeps(l: Logs, ids: map<string, int>, base: Table, c: ClientId, e: Event)
    requires LogsOk(l, ids, base) && !Full(l, c)
    requires HistoryItemOk(base, ids, l.log, Private(e, |l.log|), c)
    ensures LogsOk(Push(l, c, e), ids, base)
  {
    var l' := Push(l, c, e);
    forall d: ClientId ensures ClientOk(l', ids, base, d) {
      assert ClientOk(l, ids, base, d);
      if d == c {
        PushClient(l, ids, base, c, e);
      } else {
        assert Feed(l', d) == Feed(l, d);
      }
    }
  }

  lemma PushClient(l: Logs, ids: map<string, int>, base: Table, c: ClientId, e: Event)
    requires ClientOk(l, ids, base, c) && !Full(l, c)
    requires HistoryItemOk(base, ids, l.log, Private(e, |l.log|), c)
    ensures ClientOk(Push(l, c, e), ids, base, c)
  {
    var x, f := Private(e, |l.log|), Feed(l, c);
    assert Feed(Push(l, c, e), c) == f + [x];
    FeedOkPrivate(l.log, f, c, Taken(l, c), e);
    DropsOkPush(l.log, f, c, Taken(l, c), x);
    HistoryOkPush(base, ids, l.log, f, c, x);
  }

  lemma HistoryOkPush(base: Table, ids: map<string, int>, log: seq<Entry>, f: seq<Item>, c: ClientId, x: Item)
    requires HistoryOk(base, ids, log, f, c) && HistoryItemOk(base, ids, log, x, c)
    ensures HistoryOk(base, ids, log, f + [x], c)
  {
    forall p | 0 <= p < |f + [x]| ensures HistoryItemOk(base, ids, log, (f + [x])[p], c) {
      assert p < |f| ==> HistoryItemOk(base, ids, log, f[p], c);
    }
  }

  lemma DrainKeeps(l: Logs, ids: map<string, int>, base: Table, c: ClientId)
    requires LogsOk(l, ids, base) && Taken(l, c) < |Feed(l, c)|
    ensures LogsOk(Drain(l, c), ids, base) && !Full(Drain(l, c), c)
  {
    var l' := Drain(l, c);
    forall d: ClientId ensures ClientOk(l', ids, base, d) {
      assert ClientOk(l, ids, base, d);
      assert Feed(l', d) == Feed(l, d);
      if d == c {
        DropsOkTake(l.log, Feed(l, c), c, Taken(l, c));
      }
    }
    assert ClientOk(l, ids, base, c);
  }

  lemma AnnounceIs(l: Logs, e: Entry, c: ClientId)
    ensures var l' := Announce(l, e);
            && Feed(l', c) == Feed(l, c) + (if c in e.delivered then [Live(|l.log|)] else [])
            && Taken(l', c) == Taken(l, c)
  {}

  lemma DropsOkBroadcast(log: seq<Entry>, f: seq<Item>, c: ClientId, taken: nat, e: Entry)
    requires FeedOk(log, f, c, taken) && DropsOk(log, f, c, taken)
    requires Get(e.taken, c, 0) == taken && (c in e.delivered <==> c in e.members && |f| - taken < QUEUE_CAP)
    ensures DropsOk(log + [e], f + (if c in e.delivered then [Live(|log|)] else []), c, taken)
  {
    DropsOkLog(log, f, c, taken, e);
    if c in e.delivered {
      DropsOkPush(log + [e], f, c, taken, Live(|log|));
    } else {
      assert f + [] == f;
    }
  }

  lemma AnnounceClient(l: Logs, ids: map<string, int>, base: Table, e: Entry, c: ClientId)
    requires ClientOk(l, ids, base, c) && e.delivered == Ready(l, e.members) && e.taken == l.taken
    ensures ClientOk(Announce(l, e), ids, base, c)
  {
    var f, taken := Feed(l, c), Taken(l, c);
    AnnounceIs(l, e, c);
    FeedOkBroadcast(l.log, f, c, taken, e);
    DropsOkBroadcast(l.log, f, c, taken, e);
    HistoryOkBroadcast(base, ids, l.log, f, c, e, if c in e.delivered then [Live(|l.log|)] else []);
  }

  lemma AnnounceKeeps(l: Logs, ids: map<string, int>, base: Table, e: Entry)
    requires LogsOk(l, ids, base) && e.delivered == Ready(l, e.members) && e.taken == l.taken
    requires e.members == Apply(Replay(l.log, e.room), e.event, e.who)
    ensures LogsOk(Announce(l, e), ids, base)
  {
    LogOkAppend(l.log, e);
    forall c: ClientId ensures ClientOk(Announce(l, e), ids, base, c) {
      assert ClientOk(l, ids, base, c);
      AnnounceClient(l, ids, base, e, c);
    }
  }

  lemma CurrentAppend(m: Membership, m': Membership, log: seq<Entry>, e: Entry)
    requires CurrentOk(m, log)
    requires forall q ::
               MembersOf(m', q) == if q == e.room then Apply(MembersOf(m, q), e.event, e.who) else MembersOf(m, q)
    ensures CurrentOk(m', log + [e])
  {
    forall q ensures Replayed(m', log + [e], q) {
      assert Replayed(m, log, q);
      ReplayAppend(log, e, q);
    }
  }

  lemma RowsOkAppend(ids: map<string, int>, log: seq<Entry>, e: Entry)
    requires RowsOk(ids, log) && RowOk(ids, e)
    ensures RowsOk(ids, log + [e])
  {}

  lemma TableOkAppend(t: Table, nextId: int, row: Row)
    requires TableOk(t, nextId) && row.id == nextId
    ensures TableOk(t + [row], nextId + 1)
  {}

  lemma StoreAppend(t: Stored, log: seq<Entry>, base: Table, e: Entry)
    requires StoreOk(t, log, base) && RowOk(t.roomIds, e)
    requires e.row.Some? ==> e.row.value.id == t.nextId
    ensures StoreOk(Save(t, e.row), log + [e], base)
  {
    RowsOkAppend(t.roomIds, log, e);
    ReplayAppend(log, e, e.room);
    if e.row.Some? {
      TableOkAppend(t.table, t.nextId, e.row.value);
      assert t.table + [e.row.value] == base + (SavedRows(log) + [e.row.value]);
    }
  }

  lemma SendKeeps(s: Hub, base: Table, c: ClientId, e: Event)
    requires Inv(s, base) && c !in s.closed
    requires e.History? ==>
               && e.room in s.store.roomIds && JustJoined(s.logs.log, |s.logs.log|, c, e.room)
               && e.messages == Page(s.store.table, s.store.roomIds[e.room], HISTORY_LEN, None)
    ensures Inv(Send(s, c, e), base)
  {
    var l := s.logs;
    assert l.log[..|l.log|] == l.log;
    if Full(l, c) {
      DrainKeeps(l, s.store.roomIds, base, c);
      PushKeeps(Drain(l, c), s.store.roomIds, base, c, e);
    } else {
      PushKeeps(l, s.store.roomIds, base, c, e);
    }
  }

  lemma OfferKeeps(s: Hub, base: Table, c: ClientId, e: Event)
    requires Inv(s, base) && c !in s.closed && !e.History?
    ensures Inv(Offer(s, c, e), base)
  {
    if !Full(s.logs, c) {
      PushKeeps(s.logs, s.store.roomIds, base, c, e);
    }
  }

  /** A change of one room followed by its broadcast, or a saved message followed by its broadcast. */
  lemma BroadcastKeeps(s: Hub, base: Table, m: Membership, r: string, e: Event, who: ClientId, row: Option<Row>)
    requires Inv(s, base) && r in m.rooms && m.rooms[r] * s.closed == {}
    requires forall q :: MembersOf(m, q) == if q == r then Apply(MembersOf(s.mem, q), e, who) else MembersOf(s.mem, q)
    requires RowOk(s.store.roomIds, Entry(r, e, who, row, {}, {}, map[]))
    requires row.Some? ==> row.value.id == s.store.nextId
    ensures var s' := Broadcast(s.(mem := m, store := Save(s.store, row)), r, e, who, row);
            && s' == s.(mem := m, store := Save(s.store, row), logs := s'.logs)
            && |s'.logs.log| == |s.logs.log| + 1
            && s'.logs.log[|s.logs.log|].(members := {}, delivered := {}, taken := map[])
               == Entry(r, e, who, row, {}, {}, map[])
            && LogsOk(s'.logs, s'.store.roomIds, base)
            && CurrentOk(s'.mem, s'.logs.log)
            && StoreOk(s'.store, s'.logs.log, base)
  {
    assert Replayed(s.mem, s.logs.log, r);
    var entry := Entry(r, e, who, row, m.rooms[r], Ready(s.logs, m.rooms[r]), s.logs.taken);
    assert MembersOf(m, r) == m.rooms[r];
    AnnounceKeeps(s.logs, s.store.roomIds, base, entry);
    CurrentAppend(s.mem, m, s.logs.log, entry);
    StoreAppend(s.store, s.logs.log, base, entry);
  }

  // ---- Commands ----

  lemma AddMemberIs(m: Membership, c: ClientId, r: string)
    ensures var m' := AddMember(m, c, r);
            && (forall q :: MembersOf(m', q) == if q == r then MembersOf(m, q) + {c} else MembersOf(m, q))
            && (IndexOk(m) ==> IndexOk(m'))
  {
    var m' := AddMember(m, c, r);
    forall d, q | IndexOk(m) ensures Agrees(m', d, q) {
      assert Agrees(m, d, q);
    }
  }

  lemma DropMemberIs(m: Membership, c: ClientId, r: string)
    requires IndexOk(m) && r in m.rooms
    ensures var m' := DropMember(m, c, r);
            && (forall q :: MembersOf(m', q) == if q == r then MembersOf(m, q) - {c} else MembersOf(m, q))
            && (forall q :: MembersOf(DeleteEmpty(m', r), q) == MembersOf(m', q))
            && RoomsOf(DeleteEmpty(m', r), c) == RoomsOf(m, c) - {r}
            && IndexOk(DeleteEmpty(m', r))
  {
    var m' := DeleteEmpty(DropMember(m, c, r), r);
    forall d, q ensures Agrees(m', d, q) {
      assert Agrees(m, d, q);
    }
  }

  lemma JoinKeeps(s: Hub, base: Table, c: ClientId, r: string, env: Env)
    requires Inv(s, base) && !s.panicked && !JoinRoom(s, c, r, env).panicked
    ensures Inv(JoinRoom(s, c, r, env), base)
  {
    if r == "" {
      SendKeeps(s, base, c, Failure(r, BadRequest));
    } else if IsMember(s, c, r) {
      SendKeeps(s, base, c, Failure(r, AlreadyJoined));
    } else {
      var m, e := AddMember(s.mem, c, r), UserJoined(r, Who(s, c).name);
      AddMemberIs(s.mem, c, r);
      BroadcastKeeps(s, base, m, r, e, c, None);
      assert c in m.rooms[r] && c !in m.rooms[r] * s.closed;
      HistoryKeeps(Broadcast(s.(mem := m), r, e, c, None), base, c, r, env);
    }
  }

  lemma HistoryKeeps(s: Hub, base: Table, c: ClientId, r: string, env: Env)
    requires Inv(s, base) && c !in s.closed && JustJoined(s.logs.log, |s.logs.log|, c, r)
    ensures Inv(SendHistory(s, c, r, env), base)
  {
    if SendHistory(s, c, r, env) != s {
      SendKeeps(s, base, c, History(r, Page(s.store.table, s.store.roomIds[r], HISTORY_LEN, None)));
    }
  }

  lemma LeaveMemberKeeps(s: Hub, base: Table, c: ClientId, r: string)
    requires Inv(s, base) && IsMember(s, c, r) && !s.panicked && !LeaveRoom(s, c, r).panicked
    ensures Inv(LeaveRoom(s, c, r), base)
  {
    var m, e := DropMember(s.mem, c, r), UserLeft(r, Who(s, c).name);
    DropMemberIs(s.mem, c, r);
    BroadcastKeeps(s, base, m, r, e, c, None);
    var s', log := LeaveRoom(s, c, r), Broadcast(s.(mem := m), r, e, c, None).logs.log;
    forall q ensures Replayed(s'.mem, log, q) {
      assert Replayed(m, log, q);
    }
  }

  lemma LeaveKeeps(s: Hub, base: Table, c: ClientId, r: string)
    requires Inv(s, base) && !s.panicked && !LeaveRoom(s, c, r).panicked
    ensures Inv(LeaveRoom(s, c, r), base)
  {
    if r !in s.mem.rooms {
      SendKeeps(s, base, c, Failure(r, RoomNotFound));
    } else if c !in s.mem.rooms[r] {
      SendKeeps(s, base, c, Failure(r, NotInRoom));
    } else {
      LeaveMemberKeeps(s, base, c, r);
    }
  }

  lemma SayKeeps(s: Hub, base: Table, c: ClientId, r: string, from: string, text: string, env: Env)
    requires Inv(s, base) && !s.panicked && !SendRoomMessage(s, c, r, from, text, env).panicked
    ensures Inv(SendRoomMessage(s, c, r, from, text, env), base)
  {
    if r == "" {
      SendKeeps(s, base, c, Failure(r, BadRequest));
    } else if r !in RoomsOf(s.mem, c) {
      SendKeeps(s, base, c, Failure(r, NotInRoom));
    } else {
      assert Agrees(s.mem, c, r);
      var row := SavedRow(s, c, r, text, env);
      var id := if row.Some? && env.idRead then row.value.id else 0;
      var e := RoomMessage(r, id, if from == "" then Who(s, c).name else from, text);
      BroadcastKeeps(s, base, s.mem, r, e, c, row);
    }
  }

  lemma CommandKeeps(s: Hub, base: Table, c: ClientId, cmd: Command, env: Env)
    requires Inv(s, base) && !s.panicked && PlainScript(env.script) && !HandleCommand(s, c, cmd, env).panicked
    ensures Inv(HandleCommand(s, c, cmd, env), base)
  {
    match cmd
    case Join(r) => JoinKeeps(s, base, c, r, env);
    case Leave(r) => LeaveKeeps(s, base, c, r);
    case Say(r, from, text) => SayKeeps(s, base, c, r, from, text, env);
    case Call(_) => ScriptKeeps(s, base, c, env.script);
  }

  /** Call handlers send call notices and errors, never a history. */
  predicate Plain(effect: Effect) {
    effect.Pause? || !effect.event.History?
  }

  ghost predicate PlainScript(script: seq<Effect>) {
    forall k :: 0 <= k < |script| ==> Plain(script[k])
  }

  lemma {:induction false} ScriptKeeps(s: Hub, base: Table, c: ClientId, script: seq<Effect>)
    requires Inv(s, base) && !s.panicked && PlainScript(script) && !PerformAll(s, c, script).panicked
    ensures Inv(PerformAll(s, c, script), base)
    decreases |script|
  {
    if script != [] {
      var s1 := Perform(s, c, script[0]);
      assert Plain(script[0]);
      match script[0] {
        case ToSelf(e) => if !s1.panicked { SendKeeps(s, base, c, e); }
        case ToUser(u, e) => if u in s.userClients && !s1.panicked { OfferKeeps(s, base, s.userClients[u], e); }
        case Pause(d) => TakeOneKeeps(s, base, d);
      }
      ScriptKeeps(s1, base, c, script[1..]);
    }
  }

  // ---- Removal ----

  lemma LeaveMemberFrame(s: Hub, c: ClientId, r: string)
    requires IndexOk(s.mem) && IsMember(s, c, r) && !s.panicked && !LeaveRoom(s, c, r).panicked
    ensures var s' := LeaveRoom(s, c, r);
            && s' == s.(mem := s'.mem, logs := s'.logs)
            && RoomsOf(s'.mem, c) == RoomsOf(s.mem, c) - {r}
            && Feed(s'.logs, c) == Feed(s.logs, c) && s'.logs.taken == s.logs.taken
            && forall d, q :: IsMember(s', d, q) <==> IsMember(s, d, q) && !(d == c && q == r)
  {
    DropMemberIs(s.mem, c, r);
    var m := DropMember(s.mem, c, r);
    var entry := Entry(r, UserLeft(r, Who(s, c).name), c, None, m.rooms[r], Ready(s.logs, m.rooms[r]), s.logs.taken);
    AnnounceIs(s.logs, entry, c);
    assert LeaveRoom(s, c, r).logs == Announce(s.logs, entry);
  }

  lemma ListsTail(order: seq<string>, rs: set<string>)
    requires Lists(order, rs) && order != []
    ensures order[0] in rs && Lists(order[1..], rs - {order[0]})
  {}

  lemma FirstTurn(s: Hub, c: ClientId, order: seq<Stop>)
    requires order != [] && !s.panicked
    ensures LeaveAll(s, c, order) == LeaveAll(Turn(s, c, order[0]), c, order[1..])
  {}

  lemma TakeOneKeeps(s: Hub, base: Table, c: ClientId)
    requires Inv(s, base)
    ensures Inv(TakeOne(s, c), base)
    ensures Feed(TakeOne(s, c).logs, c) == Feed(s.logs, c) && TakeOne(s, c).logs.feed == s.logs.feed
  {
    if Taken(s.logs, c) < |Feed(s.logs, c)| {
      DrainKeeps(s.logs, s.store.roomIds, base, c);
    }
  }

  /** Leaving the listed rooms one by one, with writers taking events in between: no error branch,
      and only this client's pairs go. */
  lemma {:induction false} LeaveAllKeeps(s: Hub, base: Table, c: ClientId, order: seq<Stop>)
    requires Inv(s, base) && Lists(Exits(order), RoomsOf(s.mem, c)) && !s.panicked
    requires !LeaveAll(s, c, order).panicked
    ensures var s' := LeaveAll(s, c, order);
            && Inv(s', base)
            && s' == s.(mem := s'.mem, logs := s'.logs)
            && RoomsOf(s'.mem, c) == {}
            && Feed(s'.logs, c) == Feed(s.logs, c)
            && forall d, r :: IsMember(s', d, r) <==> IsMember(s, d, r) && d != c
    decreases |order|
  {
    if order == [] {
      forall r ensures r !in RoomsOf(s.mem, c) { assert r !in Exits(order); }
      forall r ensures !IsMember(s, c, r) { assert Agrees(s.mem, c, r); }
    } else {
      var s1 := Turn(s, c, order[0]);
      assert LeaveAll(s, c, order) == LeaveAll(s1, c, order[1..]);
      match order[0] {
        case Exit(r) => ExitKeeps(s, base, c, order);
        case Between(d) =>
          TakeOneKeeps(s, base, d);
          assert Exits(order) == Exits(order[1..]);
      }
      LeaveAllKeeps(s1, base, c, order[1..]);
    }
  }

  lemma ExitKeeps(s: Hub, base: Table, c: ClientId, order: seq<Stop>)
    requires Inv(s, base) && Lists(Exits(order), RoomsOf(s.mem, c)) && !s.panicked && order != [] && order[0].Exit?
    requires !LeaveRoom(s, c, order[0].room).panicked
    ensures var s1 := LeaveRoom(s, c, order[0].room);
            && Inv(s1, base) && IsMember(s, c, order[0].room)
            && s1 == s.(mem := s1.mem, logs := s1.logs)
            && Lists(Exits(order[1..]), RoomsOf(s1.mem, c))
            && Feed(s1.logs, c) == Feed(s.logs, c)
            && forall d, q :: IsMember(s1, d, q) <==> IsMember(s, d, q) && !(d == c && q == order[0].room)
  {
    var r := order[0].room;
    assert Exits(order)[0] == r && Exits(order)[1..] == Exits(order[1..]);
    ListsTail(Exits(order), RoomsOf(s.mem, c));
    assert Agrees(s.mem, c, r);
    LeaveMemberKeeps(s, base, c, r);
    LeaveMemberFrame(s, c, r);
  }

  lemma RemoveKeeps(s: Hub, base: Table, c: ClientId, order: seq<Stop>)
    requires Inv(s, base) && !s.panicked && Lists(Exits(order), RoomsOf(s.mem, c))
    requires !RemoveClient(s, c, order).panicked
    ensures Inv(RemoveClient(s, c, order), base)
  {
    if c in s.registered {
      LeaveAllKeeps(s, base, c, order);
    }
  }

  // ---- Every step ----

  lemma CreateRoomKeeps(s: Hub, base: Table, name: string, id: int)
    requires Inv(s, base) && name !in s.store.roomIds && id !in s.store.roomIds.Values
    ensures Inv(Step(s, CreateRoom(name, id)), base)
  {
    var ids, ids' := s.store.roomIds, s.store.roomIds[name := id];
    forall x | x in ids ensures ids[x] != id {}
    forall c: ClientId ensures ClientOk(s.logs, ids', base, c) {
      assert ClientOk(s.logs, ids, base, c);
      var f := Feed(s.logs, c);
      forall p | 0 <= p < |f| ensures HistoryItemOk(base, ids', s.logs.log, f[p], c) {
        assert HistoryItemOk(base, ids, s.logs.log, f[p], c);
      }
    }
    forall i | 0 <= i < |s.logs.log| ensures RowOk(ids', s.logs.log[i]) {
      assert RowOk(ids, s.logs.log[i]);
    }
  }

  ghost predicate PlainEvents(a: Action) {
    a.Handle? ==> PlainScript(a.env.script)
  }

  lemma StepKeeps(s: Hub, base: Table, a: Action)
    requires Inv(s, base) && Enabled(s, a) && PlainEvents(a) && !Step(s, a).panicked
    ensures Inv(Step(s, a), base)
  {
    match a
    case Unregister(c, order) => RemoveKeeps(s, base, c, order);
    case Handle(c, cmd, env) => CommandKeeps(s, base, c, cmd, env);
    case Take(c) => DrainKeeps(s.logs, s.store.roomIds, base, c);
    case CreateRoom(name, id) => CreateRoomKeeps(s, base, name, id);
    case Register(c) =>
    case Identify(c, id) =>
    case Shutdown =>
  }
}
