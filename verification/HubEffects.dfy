/**
 What each step of the hub does, in full: which broadcasts are made, what each
 client is queued, what is stored.
 */
module HubEffects {
  import opened Common
  import opened Messages
  import opened HubSpec
  import opened HubInvariants

  // ---- Vocabulary ----

  /** Client d's queue holds fewer than 8 events. */
  predicate HasRoom(l: Logs, d: ClientId) {
    |Feed(l, d)| - Taken(l, d) < 8
  }

  /** What was queued to d: these items if d is c, else nothing. */
  predicate GainsAt(l: Logs, l': Logs, c: ClientId, items: seq<Item>, d: ClientId) {
    Feed(l', d) == Feed(l, d) + if d == c then items else []
  }

  /** Nothing was queued but these items to c. */
  ghost predicate Gains(l: Logs, l': Logs, c: ClientId, items: seq<Item>) {
    forall d: ClientId :: GainsAt(l, l', c, items, d)
  }

  /** One private event was queued to c, nothing to anybody else, and nothing was broadcast. */
  ghost predicate GotOnly(l: Logs, l': Logs, c: ClientId, e: Event) {
    l'.log == l.log && Gains(l, l', c, [Private(e, |l.log|)])
  }

  /** One broadcast was made in room r, to these members less those whose queue was full. */
  ghost predicate Announced(
    l: Logs, log': seq<Entry>, r: string, e: Event, who: ClientId, row: Option<Row>, members: set<ClientId>)
  {
    && |log'| == |l.log| + 1 && log'[..|l.log|] == l.log
    && var new_ := log'[|l.log|];
       && new_.room == r && new_.event == e && new_.who == who && new_.row == row
       && new_.members == members
       && forall d: ClientId :: d in new_.delivered <==> d in members && HasRoom(l, d)
  }

  /** d was queued the new broadcast if it is a member with room, and then these items if d is c. */
  predicate CopiedAt(l: Logs, l': Logs, members: set<ClientId>, c: ClientId, items: seq<Item>, d: ClientId) {
    Feed(l', d) == Feed(l, d) + (if d in members && HasRoom(l, d) then [Live(|l.log|)] else [])
                   + if d == c then items else []
  }

  /** Exactly the members with room were queued the new broadcast; c was queued these items after it. */
  ghost predicate Copied(l: Logs, l': Logs, members: set<ClientId>, c: ClientId, items: seq<Item>) {
    forall d: ClientId :: CopiedAt(l, l', members, c, items, d)
  }

  /** The writers took nothing but one event of c, or nothing at all. */
  ghost predicate TookOnly(l: Logs, l': Logs, c: ClientId, some: bool) {
    forall d: ClientId :: Taken(l', d) == Taken(l, d) + if some && d == c then 1 else 0
  }

  /** A send that must not be lost waits until a full queue has room: c's writer takes one event. */
  lemma SendDoes(s: Hub, c: ClientId, e: Event)
    requires !s.panicked && !Send(s, c, e).panicked
    ensures GotOnly(s.logs, Send(s, c, e).logs, c, e)
    ensures TookOnly(s.logs, Send(s, c, e).logs, c, !HasRoom(s.logs, c))
  {
    var l, l' := s.logs, Send(s, c, e).logs;
    forall d: ClientId ensures GainsAt(l, l', c, [Private(e, |l.log|)], d) {}
  }

  /** A writer takes the oldest event of its queue; nothing is queued or broadcast, nobody moves. */
  lemma TakeDoes(s: Hub, c: ClientId)
    requires Enabled(s, Take(c))
    ensures var s' := Step(s, Take(c));
            && s'.logs.log == s.logs.log && (forall d: ClientId :: Feed(s'.logs, d) == Feed(s.logs, d))
            && TookOnly(s.logs, s'.logs, c, true)
            && s'.mem == s.mem && s'.store == s.store && s'.registered == s.registered
  {}

  lemma BroadcastDoes(s: Hub, r: string, e: Event, who: ClientId, row: Option<Row>)
    requires !s.panicked && !Broadcast(s, r, e, who, row).panicked && r in s.mem.rooms
    ensures Announced(s.logs, Broadcast(s, r, e, who, row).logs.log, r, e, who, row, s.mem.rooms[r])
    ensures Copied(s.logs, Broadcast(s, r, e, who, row).logs, s.mem.rooms[r], who, [])
  {
    var l, l', members := s.logs, Broadcast(s, r, e, who, row).logs, s.mem.rooms[r];
    forall d: ClientId ensures CopiedAt(l, l', members, who, [], d) {}
  }

  // ---- Joining ----

  /** When a join is followed by a history: the store is there, finds and lists the room, and the room
      has messages. */
  predicate HistoryDue(s: Hub, r: string, env: Env) {
    && env.present && env.roomFound && env.listed
    && r in s.store.roomIds && RoomLog(s.store.table, s.store.roomIds[r]) != []
  }

  /** The newest 20 messages of the room. */
  function Newest20(s: Hub, r: string): Table
    requires r in s.store.roomIds
  {
    LastN(RoomLog(s.store.table, s.store.roomIds[r]), 20)
  }

  function HistoryItems(s: Hub, r: string, env: Env, at: nat): seq<Item> {
    if HistoryDue(s, r, env) then [Private(History(r, Newest20(s, r)), at)] else []
  }

  /** A refused join answers with the reason and does nothing else. A join adds the client, announces it
      under its name to all members including itself, and then sends it the history, if one is due. */
  lemma JoinDoes(s: Hub, c: ClientId, r: string, env: Env)
    requires !s.panicked && !Step(s, Handle(c, Join(r), env)).panicked
    ensures var s' := Step(s, Handle(c, Join(r), env));
            && s' == s.(mem := s'.mem, logs := s'.logs)
            && (r == "" ==> s'.mem == s.mem && GotOnly(s.logs, s'.logs, c, Failure(r, BadRequest)))
            && (r != "" && IsMember(s, c, r) ==>
                  s'.mem == s.mem && GotOnly(s.logs, s'.logs, c, Failure(r, AlreadyJoined)))
            && (r != "" && !IsMember(s, c, r) ==>
                  var members := MembersOf(s.mem, r) + {c};
                  && (forall q :: MembersOf(s'.mem, q) == if q == r then members else MembersOf(s.mem, q))
                  && Announced(s.logs, s'.logs.log, r, UserJoined(r, Who(s, c).name), c, None, members)
                  && Copied(s.logs, s'.logs, members, c, HistoryItems(s, r, env, |s.logs.log| + 1)))
  {
    if r == "" {
      SendDoes(s, c, Failure(r, BadRequest));
    } else if IsMember(s, c, r) {
      SendDoes(s, c, Failure(r, AlreadyJoined));
    } else {
      JoinAddDoes(s, c, r, env);
    }
  }

  lemma JoinAddDoes(s: Hub, c: ClientId, r: string, env: Env)
    requires !s.panicked && !JoinRoom(s, c, r, env).panicked && r != "" && !IsMember(s, c, r)
    ensures var s', members := JoinRoom(s, c, r, env), MembersOf(s.mem, r) + {c};
            && s' == s.(mem := s'.mem, logs := s'.logs)
            && (forall q :: MembersOf(s'.mem, q) == if q == r then members else MembersOf(s.mem, q))
            && Announced(s.logs, s'.logs.log, r, UserJoined(r, Who(s, c).name), c, None, members)
            && Copied(s.logs, s'.logs, members, c, HistoryItems(s, r, env, |s.logs.log| + 1))
  {
    var s1, e := s.(mem := AddMember(s.mem, c, r)), UserJoined(r, Who(s, c).name);
    var told, members := Broadcast(s1, r, e, c, None), MembersOf(s.mem, r) + {c};
    BroadcastDoes(s1, r, e, c, None);
    HistoryDoes(told, c, r, env);
    Then(s.logs, told.logs, SendHistory(told, c, r, env).logs, members, c, HistoryItems(told, r, env, |told.logs.log|));
  }

  /** A broadcast, then something for c. */
  lemma Then(l: Logs, l1: Logs, l2: Logs, members: set<ClientId>, c: ClientId, items: seq<Item>)
    requires Copied(l, l1, members, c, []) && Gains(l1, l2, c, items)
    ensures Copied(l, l2, members, c, items)
  {
    forall d: ClientId ensures CopiedAt(l, l2, members, c, items, d) {
      assert CopiedAt(l, l1, members, c, [], d) && GainsAt(l1, l2, c, items, d);
    }
  }

  lemma HistoryDoes(s: Hub, c: ClientId, r: string, env: Env)
    requires !s.panicked && !SendHistory(s, c, r, env).panicked
    ensures var s' := SendHistory(s, c, r, env);
            s' == s.(logs := s'.logs) && s'.logs.log == s.logs.log
            && Gains(s.logs, s'.logs, c, HistoryItems(s, r, env, |s.logs.log|))
  {
    if HistoryDue(s, r, env) {
      SendDoes(s, c, History(r, Newest20(s, r)));
    } else {
      forall d: ClientId ensures GainsAt(s.logs, s.logs, c, [], d) {}
    }
  }

  /** After a join that adds the client, a history directly follows the client's own join entry exactly
      if the store is there, finds and lists the room, and the room has messages; it then holds the
      newest 20. */
  lemma HistorySentIff(s: Hub, base: Table, c: ClientId, r: string, env: Env)
    requires Inv(s, base) && !s.panicked && r != "" && !IsMember(s, c, r)
    requires !Step(s, Handle(c, Join(r), env)).panicked
    ensures var l, at := Step(s, Handle(c, Join(r), env)).logs, |s.logs.log| + 1;
            && JustJoined(l.log, at, c, r)
            && ((exists rows :: Private(History(r, rows), at) in Feed(l, c))
                <==> && env.present && env.roomFound && env.listed && r in s.store.roomIds
                     && RoomLog(s.store.table, s.store.roomIds[r]) != [])
            && forall rows :: Private(History(r, rows), at) in Feed(l, c) ==>
                 r in s.store.roomIds && rows == LastN(RoomLog(s.store.table, s.store.roomIds[r]), 20)
  {
    JoinDoes(s, c, r, env);
    var l, l', at := s.logs, Step(s, Handle(c, Join(r), env)).logs, |s.logs.log| + 1;
    var members, items := MembersOf(s.mem, r) + {c}, HistoryItems(s, r, env, at);
    assert CopiedAt(l, l', members, c, items, c);
    assert ClientOk(l, s.store.roomIds, base, c);
    ItemsOfFeed(l, s.store.roomIds, base, c);
    forall rows ensures Private(History(r, rows), at) in Feed(l', c) <==> Private(History(r, rows), at) in items {
      assert Private(History(r, rows), at) !in Feed(l, c);
    }
    if HistoryDue(s, r, env) {
      assert Private(History(r, Newest20(s, r)), at) in items;
    }
  }

  lemma ItemsOfFeed(l: Logs, ids: map<string, int>, base: Table, c: ClientId)
    requires ClientOk(l, ids, base, c)
    ensures forall x :: x in Feed(l, c) ==> After(x) <= |l.log|
  {
    forall x | x in Feed(l, c) ensures After(x) <= |l.log| {
      var p :| 0 <= p < |Feed(l, c)| && Feed(l, c)[p] == x;
    }
  }

  // ---- Leaving ----

  /** A refused leave answers with the reason and does nothing else. A leave takes the client out and
      announces it under its name to the members that remain. */
  lemma LeaveDoes(s: Hub, c: ClientId, r: string, env: Env)
    requires !s.panicked && !Step(s, Handle(c, Leave(r), env)).panicked
    ensures var s' := Step(s, Handle(c, Leave(r), env));
            && s' == s.(mem := s'.mem, logs := s'.logs)
            && (r !in s.mem.rooms ==> s'.mem == s.mem && GotOnly(s.logs, s'.logs, c, Failure(r, RoomNotFound)))
            && (r in s.mem.rooms && c !in s.mem.rooms[r] ==>
                  s'.mem == s.mem && GotOnly(s.logs, s'.logs, c, Failure(r, NotInRoom)))
            && (IsMember(s, c, r) ==>
                  var members := MembersOf(s.mem, r) - {c};
                  && (forall q :: MembersOf(s'.mem, q) == if q == r then members else MembersOf(s.mem, q))
                  && (r in s'.mem.rooms <==> members != {})
                  && Announced(s.logs, s'.logs.log, r, UserLeft(r, Who(s, c).name), c, None, members)
                  && Copied(s.logs, s'.logs, members, c, []))
  {
    LeaveRoomDoes(s, c, r);
  }

  lemma LeaveRoomDoes(s: Hub, c: ClientId, r: string)
    requires !s.panicked && !LeaveRoom(s, c, r).panicked
    ensures var s' := LeaveRoom(s, c, r);
            && s' == s.(mem := s'.mem, logs := s'.logs)
            && (r !in s.mem.rooms ==> s'.mem == s.mem && GotOnly(s.logs, s'.logs, c, Failure(r, RoomNotFound)))
            && (r in s.mem.rooms && c !in s.mem.rooms[r] ==>
                  s'.mem == s.mem && GotOnly(s.logs, s'.logs, c, Failure(r, NotInRoom)))
            && (IsMember(s, c, r) ==>
                  var members := MembersOf(s.mem, r) - {c};
                  && (forall q :: MembersOf(s'.mem, q) == if q == r then members else MembersOf(s.mem, q))
                  && (r in s'.mem.rooms <==> members != {})
                  && Announced(s.logs, s'.logs.log, r, UserLeft(r, Who(s, c).name), c, None, members)
                  && Copied(s.logs, s'.logs, members, c, []))
  {
    if r !in s.mem.rooms {
      SendDoes(s, c, Failure(r, RoomNotFound));
    } else if c !in s.mem.rooms[r] {
      SendDoes(s, c, Failure(r, NotInRoom));
    } else {
      BroadcastDoes(s.(mem := DropMember(s.mem, c, r)), r, UserLeft(r, Who(s, c).name), c, None);
    }
  }

  // ---- Messages ----

  /** When a message is saved: its sender is a user and no guest, and the store is there, finds the room
      and takes the row. */
  predicate IsSaved(s: Hub, c: ClientId, r: string, env: Env) {
    && !Who(s, c).isGuest && Who(s, c).userId > 0
    && env.present && env.roomFound && env.saved && r in s.store.roomIds
  }

  /** The entry of a message: the text as said, the sender's name as given or as it is now, and the id
      of the saved row if it could be read. */
  ghost predicate IsMessage(s: Hub, c: ClientId, r: string, from: string, text: string, env: Env, e: Entry) {
    && e.room == r && e.who == c
    && e.event.RoomMessage? && e.event.room == r && e.event.text == text
    && e.event.from == (if from != "" then from else Who(s, c).name)
    && (e.row.Some? <==> IsSaved(s, c, r, env))
    && (e.row.Some? ==>
          && e.row.value.body == text && e.row.value.userId == Who(s, c).userId
          && e.row.value.roomId == s.store.roomIds[r] && e.row.value.id == s.store.nextId)
    && e.event.id == (if e.row.Some? && env.idRead then e.row.value.id else 0)
  }

  /** A refused message answers with the reason and does nothing else. A message is saved if it can be,
      and announced to the room's members. */
  lemma SayDoes(s: Hub, base: Table, c: ClientId, r: string, from: string, text: string, env: Env)
    requires Inv(s, base) && !s.panicked && !Step(s, Handle(c, Say(r, from, text), env)).panicked
    ensures var s' := Step(s, Handle(c, Say(r, from, text), env));
            && s' == s.(store := s'.store, logs := s'.logs)
            && (r == "" ==> s'.store == s.store && GotOnly(s.logs, s'.logs, c, Failure(r, BadRequest)))
            && (r != "" && !IsMember(s, c, r) ==>
                  s'.store == s.store && GotOnly(s.logs, s'.logs, c, Failure(r, NotInRoom)))
            && (r != "" && IsMember(s, c, r) ==>
                  && |s'.logs.log| == |s.logs.log| + 1
                  && var e := s'.logs.log[|s.logs.log|];
                     && IsMessage(s, c, r, from, text, env, e)
                     && Announced(s.logs, s'.logs.log, r, e.event, c, e.row, MembersOf(s.mem, r))
                     && s'.store.table == s.store.table + (if e.row.Some? then [e.row.value] else [])
                     && s'.store.nextId == s.store.nextId + (if e.row.Some? then 1 else 0)
                     && s'.store.roomIds == s.store.roomIds
                     && Copied(s.logs, s'.logs, MembersOf(s.mem, r), c, []))
  {
    assert Agrees(s.mem, c, r);
    if r == "" {
      SendDoes(s, c, Failure(r, BadRequest));
    } else if !IsMember(s, c, r) {
      SendDoes(s, c, Failure(r, NotInRoom));
    } else {
      SayIsBroadcast(s, c, r, from, text, env);
    }
  }

  lemma SayIsBroadcast(s: Hub, c: ClientId, r: string, from: string, text: string, env: Env)
    requires !s.panicked && !SendRoomMessage(s, c, r, from, text, env).panicked
    requires r != "" && r in RoomsOf(s.mem, c) && r in s.mem.rooms
    ensures var s' := SendRoomMessage(s, c, r, from, text, env);
            && |s'.logs.log| == |s.logs.log| + 1
            && var e := s'.logs.log[|s.logs.log|];
               && IsMessage(s, c, r, from, text, env, e)
               && Announced(s.logs, s'.logs.log, r, e.event, c, e.row, MembersOf(s.mem, r))
               && s'.store.table == s.store.table + (if e.row.Some? then [e.row.value] else [])
               && s'.store.nextId == s.store.nextId + (if e.row.Some? then 1 else 0)
               && s'.store.roomIds == s.store.roomIds
               && Copied(s.logs, s'.logs, MembersOf(s.mem, r), c, [])
  {
    var row := SavedRow(s, c, r, text, env);
    var id := if row.Some? && env.idRead then row.value.id else 0;
    var s1 := s.(store := Save(s.store, row));
    var msg := RoomMessage(r, id, if from == "" then Who(s, c).name else from, text);
    BroadcastDoes(s1, r, msg, c, row);
  }

  // ---- Removal ----

  /** c's leaving of room r, announced under its name to these members. */
  predicate IsFarewell(e: Entry, c: ClientId, name: string, r: string, members: set<ClientId>) {
    e.room == r && e.event == UserLeft(r, name) && e.who == c && e.row.None? && e.members == members
  }

  ghost predicate Farewells(
    log: seq<Entry>, log': seq<Entry>, c: ClientId, name: string, m: Membership, rs: seq<string>)
  {
    && |log'| == |log| + |rs| && log <= log'
    && forall k :: 0 <= k < |rs| ==> IsFarewell(log'[|log| + k], c, name, rs[k], MembersOf(m, rs[k]) - {c})
  }

  lemma {:induction false} LeaveAllDoes(s: Hub, base: Table, c: ClientId, order: seq<Stop>)
    requires Inv(s, base) && !s.panicked && Lists(Exits(order), RoomsOf(s.mem, c)) && !LeaveAll(s, c, order).panicked
    ensures Farewells(s.logs.log, LeaveAll(s, c, order).logs.log, c, Who(s, c).name, s.mem, Exits(order))
    decreases |order|
  {
    if order != [] {
      var s1 := Turn(s, c, order[0]);
      FirstTurn(s, c, order);
      StaysPanicked(s1, c, order[1..]);
      TurnKeeps(s, base, c, order);
      LeaveAllDoes(s1, base, c, order[1..]);
      TurnDoes(s, c, order, LeaveAll(s, c, order).logs.log);
    }
  }

  lemma TurnKeeps(s: Hub, base: Table, c: ClientId, order: seq<Stop>)
    requires Inv(s, base) && !s.panicked && order != [] && Lists(Exits(order), RoomsOf(s.mem, c))
    requires !Turn(s, c, order[0]).panicked
    ensures var s1 := Turn(s, c, order[0]);
            && Inv(s1, base) && Lists(Exits(order[1..]), RoomsOf(s1.mem, c)) && Who(s1, c) == Who(s, c)
            && (order[0].Exit? ==> IsMember(s, c, order[0].room))
  {
    match order[0]
    case Exit(_) => ExitKeeps(s, base, c, order);
    case Between(d) =>
      TakeOneKeeps(s, base, d);
      assert Exits(order) == Exits(order[1..]);
  }

  lemma TurnDoes(s: Hub, c: ClientId, order: seq<Stop>, log': seq<Entry>)
    requires !s.panicked && order != [] && !Turn(s, c, order[0]).panicked
    requires order[0].Exit? ==> IsMember(s, c, order[0].room)
    requires var s1 := Turn(s, c, order[0]);
             Farewells(s1.logs.log, log', c, Who(s, c).name, s1.mem, Exits(order[1..]))
    ensures Farewells(s.logs.log, log', c, Who(s, c).name, s.mem, Exits(order))
  {
    match order[0]
    case Exit(r) =>
      ExitDoes(s, c, r, log', Exits(order[1..]));
      assert Exits(order) == [r] + Exits(order[1..]);
    case Between(d) => assert Exits(order) == Exits(order[1..]);
  }

  lemma StaysPanicked(s: Hub, c: ClientId, order: seq<Stop>)
    ensures s.panicked ==> LeaveAll(s, c, order).panicked
  {}

  lemma ExitDoes(s: Hub, c: ClientId, r: string, log': seq<Entry>, rs: seq<string>)
    requires !s.panicked && !LeaveRoom(s, c, r).panicked && IsMember(s, c, r)
    requires Farewells(LeaveRoom(s, c, r).logs.log, log', c, Who(s, c).name, LeaveRoom(s, c, r).mem, rs)
    ensures Farewells(s.logs.log, log', c, Who(s, c).name, s.mem, [r] + rs)
  {
    var s1 := LeaveRoom(s, c, r);
    LeaveRoomDoes(s, c, r);
    FarewellFirst(s.logs.log, s1.logs.log, log', c, Who(s, c).name, s.mem, s1.mem, r, rs);
  }

  lemma FarewellFirst(
    l0: seq<Entry>, l1: seq<Entry>, l2: seq<Entry>, c: ClientId, name: string, m: Membership, m1: Membership,
    r: string, rs: seq<string>)
    requires |l1| == |l0| + 1 && l0 <= l1 && IsFarewell(l1[|l0|], c, name, r, MembersOf(m, r) - {c})
    requires Farewells(l1, l2, c, name, m1, rs)
    requires forall q :: MembersOf(m1, q) == if q == r then MembersOf(m, r) - {c} else MembersOf(m, q)
    ensures Farewells(l0, l2, c, name, m, [r] + rs)
  {
    var all := [r] + rs;
    forall k | 0 <= k < |all| ensures IsFarewell(l2[|l0| + k], c, name, all[k], MembersOf(m, all[k]) - {c}) {
      if k == 0 {
        assert l2[|l0|] == l1[|l0|];
      } else {
        assert IsFarewell(l2[|l1| + (k - 1)], c, name, rs[k - 1], MembersOf(m1, rs[k - 1]) - {c});
      }
    }
  }

  /** Removing a client that is not registered does nothing. Removing a registered one announces its
      leaving, under its name, in each of its rooms and in no other, to the members that remain. */
  lemma RemovalDoes(s: Hub, base: Table, c: ClientId, order: seq<Stop>)
    requires Inv(s, base) && Enabled(s, Unregister(c, order)) && !Step(s, Unregister(c, order)).panicked
    ensures var s' := Step(s, Unregister(c, order));
            && (c !in s.registered ==> s' == s)
            && (c in s.registered ==>
                  Farewells(s.logs.log, s'.logs.log, c, Who(s, c).name, s.mem, Exits(order))
                  && s'.store == s.store && Feed(s'.logs, c) == Feed(s.logs, c))
  {
    if c in s.registered {
      LeaveAllDoes(s, base, c, order);
      LeaveAllKeeps(s, base, c, order);
    }
  }

  // ---- Call handlers' sends ----

  /** One send: to its own client always, to a user if connected and with room in the queue. */
  lemma PerformDoes(s: Hub, c: ClientId, effect: Effect)
    requires !s.panicked && !Perform(s, c, effect).panicked
    ensures var l, l' := s.logs, Perform(s, c, effect).logs;
            match effect
            case ToSelf(e) => GotOnly(l, l', c, e)
            case ToUser(u, e) =>
              if u in s.userClients && HasRoom(l, s.userClients[u])
              then GotOnly(l, l', s.userClients[u], e)
              else l' == l
            case Pause(_) => l'.log == l.log && l'.feed == l.feed
  {
    match effect
    case ToSelf(e) => SendDoes(s, c, e);
    case ToUser(u, e) =>
      if u in s.userClients && HasRoom(s.logs, s.userClients[u]) {
        var l, l', t := s.logs, Perform(s, c, effect).logs, s.userClients[u];
        forall d: ClientId ensures GainsAt(l, l', t, [Private(e, |l.log|)], d) {}
      }
    case Pause(_) =>
  }

  /** What one send means for d. */
  function MeantOne(users: map<int, ClientId>, c: ClientId, effect: Effect, d: ClientId, at: nat): seq<Item> {
    match effect
    case ToSelf(e) => if c == d then [Private(e, at)] else []
    case ToUser(u, e) => if u in users && users[u] == d then [Private(e, at)] else []
    case Pause(_) => []
  }

  /** The events of a script that are meant for d, in order. */
  function Meant(users: map<int, ClientId>, c: ClientId, script: seq<Effect>, d: ClientId, at: nat): seq<Item> {
    if script == [] then [] else MeantOne(users, c, script[0], d, at) + Meant(users, c, script[1..], d, at)
  }

  lemma FirstDelivered(s: Hub, c: ClientId, effect: Effect, d: ClientId)
    requires !s.panicked && !Perform(s, c, effect).panicked
    requires |Feed(s.logs, d)| - Taken(s.logs, d) + |MeantOne(s.userClients, c, effect, d, |s.logs.log|)| <= 8
    ensures var l, l' := s.logs, Perform(s, c, effect).logs;
            && l'.log == l.log && Taken(l', d) >= Taken(l, d)
            && Feed(l', d) == Feed(l, d) + MeantOne(s.userClients, c, effect, d, |l.log|)
  {
    var l, l', at := s.logs, Perform(s, c, effect).logs, |s.logs.log|;
    PerformDoes(s, c, effect);
    match effect
    case ToSelf(e) => assert GainsAt(l, l', c, [Private(e, at)], d);
    case ToUser(u, e) =>
      if u in s.userClients && HasRoom(l, s.userClients[u]) {
        assert GainsAt(l, l', s.userClients[u], [Private(e, at)], d);
      }
    case Pause(_) =>
  }

  lemma Regroup<T>(a: seq<T>, b: seq<T>, c: seq<T>)
    ensures (a + b) + c == a + (b + c)
  {}

  lemma FirstPerformed(s: Hub, c: ClientId, script: seq<Effect>)
    requires script != [] && !s.panicked
    ensures PerformAll(s, c, script) == PerformAll(Perform(s, c, script[0]), c, script[1..])
    ensures Perform(s, c, script[0]).panicked ==> PerformAll(s, c, script).panicked
  {}

  /** A client with room for all of them is queued exactly the events meant for it, in order. */
  lemma {:induction false} ScriptDelivers(s: Hub, c: ClientId, script: seq<Effect>, d: ClientId)
    requires !s.panicked && !PerformAll(s, c, script).panicked
    requires |Feed(s.logs, d)| - Taken(s.logs, d) + |Meant(s.userClients, c, script, d, |s.logs.log|)| <= 8
    ensures var l, l' := s.logs, PerformAll(s, c, script).logs;
            l'.log == l.log && Feed(l', d) == Feed(l, d) + Meant(s.userClients, c, script, d, |l.log|)
    decreases |script|
  {
    if script != [] {
      var s1, rest, at := Perform(s, c, script[0]), script[1..], |s.logs.log|;
      FirstPerformed(s, c, script);
      FirstDelivered(s, c, script[0], d);
      ScriptDelivers(s1, c, rest, d);
      Regroup(Feed(s.logs, d), MeantOne(s.userClients, c, script[0], d, at), Meant(s.userClients, c, rest, d, at));
    }
  }

  // ---- Every broadcast has its cause ----

  /** Step a, made in state s, accounts for the broadcast. */
  ghost predicate Explains(s: Hub, a: Action, e: Entry) {
    match a
    case Handle(c, Join(r), _) =>
      e.room == r && e.event == UserJoined(r, Who(s, c).name) && e.who == c && e.row.None?
    case Handle(c, Leave(r), _) =>
      e.room == r && e.event == UserLeft(r, Who(s, c).name) && e.who == c && e.row.None?
    case Handle(c, Say(r, from, text), env) => IsMessage(s, c, r, from, text, env, e)
    case Unregister(c, order) =>
      e.room in Exits(order) && e.event == UserLeft(e.room, Who(s, c).name) && e.who == c && e.row.None?
    case _ => false
  }

  lemma AnnouncedIs(
    l: Logs, log': seq<Entry>, r: string, e: Event, who: ClientId, row: Option<Row>, members: set<ClientId>, i: nat)
    requires Announced(l, log', r, e, who, row, members) && |l.log| <= i < |log'|
    ensures log'[i].room == r && log'[i].event == e && log'[i].who == who && log'[i].row == row
  {}

  lemma JoinExplains(s: Hub, base: Table, c: ClientId, r: string, env: Env, i: nat)
    requires Inv(s, base) && !s.panicked && !Step(s, Handle(c, Join(r), env)).panicked
    requires |s.logs.log| <= i < |Step(s, Handle(c, Join(r), env)).logs.log|
    ensures Explains(s, Handle(c, Join(r), env), Step(s, Handle(c, Join(r), env)).logs.log[i])
  {
    if r == "" {
      SendDoes(s, c, Failure(r, BadRequest));
    } else if IsMember(s, c, r) {
      SendDoes(s, c, Failure(r, AlreadyJoined));
    } else {
      JoinAddDoes(s, c, r, env);
      AnnouncedIs(s.logs, JoinRoom(s, c, r, env).logs.log, r, UserJoined(r, Who(s, c).name), c, None,
                  MembersOf(s.mem, r) + {c}, i);
    }
  }

  lemma LeaveExplains(s: Hub, base: Table, c: ClientId, r: string, env: Env, i: nat)
    requires Inv(s, base) && !s.panicked && !Step(s, Handle(c, Leave(r), env)).panicked
    requires |s.logs.log| <= i < |Step(s, Handle(c, Leave(r), env)).logs.log|
    ensures Explains(s, Handle(c, Leave(r), env), Step(s, Handle(c, Leave(r), env)).logs.log[i])
  {
    LeaveDoes(s, c, r, env);
  }

  lemma SayExplains(s: Hub, base: Table, c: ClientId, r: string, from: string, text: string, env: Env, i: nat)
    requires Inv(s, base) && !s.panicked && !Step(s, Handle(c, Say(r, from, text), env)).panicked
    requires |s.logs.log| <= i < |Step(s, Handle(c, Say(r, from, text), env)).logs.log|
    ensures Explains(s, Handle(c, Say(r, from, text), env), Step(s, Handle(c, Say(r, from, text), env)).logs.log[i])
  {
    SayDoes(s, base, c, r, from, text, env);
  }

  lemma CommandExplains(s: Hub, base: Table, c: ClientId, cmd: Command, env: Env, i: nat)
    requires Inv(s, base) && !s.panicked && !Step(s, Handle(c, cmd, env)).panicked
    requires |s.logs.log| <= i < |Step(s, Handle(c, cmd, env)).logs.log|
    ensures Explains(s, Handle(c, cmd, env), Step(s, Handle(c, cmd, env)).logs.log[i])
  {
    match cmd
    case Join(r) => JoinExplains(s, base, c, r, env, i);
    case Leave(r) => LeaveExplains(s, base, c, r, env, i);
    case Say(r, from, text) => SayExplains(s, base, c, r, from, text, env, i);
    case Call(_) => ScriptKeepsLog(s, c, env.script);
  }

  lemma RemovalExplains(s: Hub, base: Table, c: ClientId, order: seq<Stop>, i: nat)
    requires Inv(s, base) && Enabled(s, Unregister(c, order)) && !Step(s, Unregister(c, order)).panicked
    requires |s.logs.log| <= i < |Step(s, Unregister(c, order)).logs.log|
    ensures Explains(s, Unregister(c, order), Step(s, Unregister(c, order)).logs.log[i])
  {
    RemovalDoes(s, base, c, order);
    if c in s.registered {
      var rs, k := Exits(order), i - |s.logs.log|;
      assert IsFarewell(Step(s, Unregister(c, order)).logs.log[|s.logs.log| + k], c, Who(s, c).name, rs[k],
                        MembersOf(s.mem, rs[k]) - {c});
    }
  }

  lemma StepExplains(s: Hub, base: Table, a: Action, i: nat)
    requires Inv(s, base) && Enabled(s, a) && !Step(s, a).panicked
    requires |s.logs.log| <= i < |Step(s, a).logs.log|
    ensures Explains(s, a, Step(s, a).logs.log[i])
  {
    match a
    case Handle(c, cmd, env) => CommandExplains(s, base, c, cmd, env, i);
    case Unregister(c, order) => RemovalExplains(s, base, c, order, i);
    case Register(_) =>
    case Take(_) =>
    case Identify(_, _) =>
    case CreateRoom(_, _) =>
    case Shutdown =>
  }

  lemma {:induction false} ScriptKeepsLog(s: Hub, c: ClientId, script: seq<Effect>)
    ensures PerformAll(s, c, script).logs.log == s.logs.log
    decreases |script|
  {
    if script != [] && !s.panicked {
      ScriptKeepsLog(Perform(s, c, script[0]), c, script[1..]);
    }
  }
}
