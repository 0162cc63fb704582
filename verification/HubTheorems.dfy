/** What holds of the hub in every run. */
module HubTheorems {
  import opened Common
  import opened Messages
  import opened HubSpec
  import opened HubInvariants

  // ---- Runs ----

  ghost predicate PlainRun(acts: seq<Action>) {
    forall k :: 0 <= k < |acts| ==> PlainEvents(acts[k])
  }

  lemma {:induction false} RunKeeps(init: Hub, acts: seq<Action>)
    requires Initial(init) && Legal(init, acts) && PlainRun(acts) && !Exec(init, acts).panicked
    ensures Inv(Exec(init, acts), init.store.table)
  {
    if acts == [] {
      InitialInv(init);
    } else {
      RunKeeps(init, acts[..|acts| - 1]);
      StepKeeps(Exec(init, acts[..|acts| - 1]), init.store.table, acts[|acts| - 1]);
    }
  }

  // ---- Membership is one relation ----

  /** The relation after a step, without reference to either index. */
  ghost predicate MemberAfter(s: Hub, a: Action, d: ClientId, r: string) {
    match a
    case Handle(c, Join(q), _) => IsMember(s, d, r) || (d == c && r == q && q != "")
    case Handle(c, Leave(q), _) => IsMember(s, d, r) && !(d == c && r == q)
    case Unregister(c, _) => IsMember(s, d, r) && !(d == c && c in s.registered)
    case _ => IsMember(s, d, r)
  }

  lemma CommandRelation(s: Hub, c: ClientId, cmd: Command, env: Env, d: ClientId, r: string)
    requires IndexOk(s.mem) && !s.panicked && !HandleCommand(s, c, cmd, env).panicked
    ensures IsMember(HandleCommand(s, c, cmd, env), d, r) <==> MemberAfter(s, Handle(c, cmd, env), d, r)
  {
    match cmd
    case Leave(q) => if IsMember(s, c, q) { LeaveMemberFrame(s, c, q); }
    case Join(q) => AddMemberIs(s.mem, c, q);
    case Say(_, _, _) =>
    case Call(_) =>
  }

  lemma RemovalRelation(s: Hub, base: Table, c: ClientId, order: seq<Stop>)
    requires Inv(s, base) && !s.panicked && c in s.registered && Lists(Exits(order), RoomsOf(s.mem, c))
    requires !RemoveClient(s, c, order).panicked
    ensures var s' := RemoveClient(s, c, order);
            && s'.registered == s.registered - {c} && s'.closed == s.closed + {c}
            && s'.spawned == s.spawned && s'.who == s.who && s'.stopped == s.stopped
            && s'.userClients == (if Who(s, c).userId > 0 then s.userClients - {Who(s, c).userId} else s.userClients)
            && forall d, r :: IsMember(s', d, r) <==> IsMember(s, d, r) && d != c
  {
    LeaveAllKeeps(s, base, c, order);
  }

  lemma StepMembers(s: Hub, base: Table, a: Action, d: ClientId, r: string)
    requires Inv(s, base) && Enabled(s, a) && !Step(s, a).panicked
    ensures IsMember(Step(s, a), d, r) <==> MemberAfter(s, a, d, r)
  {
    match a
    case Unregister(c, order) => if c in s.registered { RemovalRelation(s, base, c, order); }
    case Handle(c, cmd, env) => CommandRelation(s, c, cmd, env, d, r);
    case Register(_) =>
    case Take(_) =>
    case Identify(_, _) =>
    case CreateRoom(_, _) =>
    case Shutdown =>
  }

  /** Every step changes exactly the intended pairs, and both indexes show it. */
  lemma StepRefinesRelation(s: Hub, base: Table, a: Action, d: ClientId, r: string)
    requires Inv(s, base) && Enabled(s, a) && PlainEvents(a) && !Step(s, a).panicked
    ensures IsMember(Step(s, a), d, r) <==> MemberAfter(s, a, d, r)
    ensures r in RoomsOf(Step(s, a).mem, d) <==> MemberAfter(s, a, d, r)
  {
    var s' := Step(s, a);
    StepMembers(s, base, a, d, r);
    StepKeeps(s, base, a);
    assert Agrees(s'.mem, d, r);
  }

  /** A message that passes the sender's own check is broadcast, and the sender is a recipient. */
  lemma SenderIsRecipient(s: Hub, base: Table, c: ClientId, r: string, from: string, text: string, env: Env)
    requires Inv(s, base) && !s.panicked && r != "" && r in RoomsOf(s.mem, c)
    requires !SendRoomMessage(s, c, r, from, text, env).panicked
    ensures var log := SendRoomMessage(s, c, r, from, text, env).logs.log;
            && |log| == |s.logs.log| + 1
            && c in log[|s.logs.log|].members
            && log[|s.logs.log|].members == MembersOf(s.mem, r)
  {
    assert Agrees(s.mem, c, r);
  }

  /** Removal takes the client out of every room and nobody else out of any; the client itself is
      sent nothing, so no error branch and no blocking send is reached. */
  lemma RemovalIsClean(s: Hub, base: Table, c: ClientId, order: seq<Stop>)
    requires Inv(s, base) && !s.panicked && c in s.registered && Lists(Exits(order), RoomsOf(s.mem, c))
    requires !RemoveClient(s, c, order).panicked
    ensures var s' := RemoveClient(s, c, order);
            && RoomsOf(s'.mem, c) == {}
            && (forall d, r :: IsMember(s', d, r) <==> IsMember(s, d, r) && d != c)
            && Feed(s'.logs, c) == Feed(s.logs, c)
            && c in s'.closed && c !in s'.registered
  {
    LeaveAllKeeps(s, base, c, order);
  }

  // ---- One broadcast order for everybody ----

  /** Two clients that both received broadcasts i and j received them in the same order. */
  lemma SameOrderForAll(
    init: Hub, acts: seq<Action>, c: ClientId, d: ClientId, i: nat, j: nat, p: nat, q: nat, p': nat, q': nat)
    requires Initial(init) && Legal(init, acts) && PlainRun(acts) && !Exec(init, acts).panicked
    requires var l := Exec(init, acts).logs;
             && p < |Feed(l, c)| && q < |Feed(l, c)| && Feed(l, c)[p] == Live(i) && Feed(l, c)[q] == Live(j)
             && p' < |Feed(l, d)| && q' < |Feed(l, d)| && Feed(l, d)[p'] == Live(i) && Feed(l, d)[q'] == Live(j)
    ensures p < q <==> i < j
    ensures p < q <==> p' < q'
  {
    RunKeeps(init, acts);
    var s := Exec(init, acts);
    assert ClientOk(s.logs, s.store.roomIds, init.store.table, c);
    assert ClientOk(s.logs, s.store.roomIds, init.store.table, d);
    FeedOrder(s.logs.log, Feed(s.logs, c), c, Taken(s.logs, c), i, j, p, q);
    FeedOrder(s.logs.log, Feed(s.logs, d), d, Taken(s.logs, d), i, j, p', q');
  }

  lemma FeedOrder(log: seq<Entry>, f: seq<Item>, c: ClientId, taken: nat, i: nat, j: nat, p: nat, q: nat)
    requires FeedOk(log, f, c, taken)
    requires p < |f| && q < |f| && f[p] == Live(i) && f[q] == Live(j)
    ensures p < q <==> i < j
  {}

  /** Every broadcast was addressed to the room's members as the log implies them. It is in a feed,
      exactly once, exactly for the members whose queue had room; the others missed it, and the two
      groups make up the members. */
  lemma BroadcastIsConserved(init: Hub, acts: seq<Action>, i: nat)
    requires Initial(init) && Legal(init, acts) && PlainRun(acts) && !Exec(init, acts).panicked
    requires i < |Exec(init, acts).logs.log|
    ensures var l := Exec(init, acts).logs;
            var e := l.log[i];
            && e.members == Replay(l.log[..i + 1], e.room)
            && e.delivered == (set c | c in e.members && HadRoom(l.log, Feed(l, c), c, i))
            && |e.delivered| + |Missed(l, i)| == |e.members|
    ensures var l := Exec(init, acts).logs;
            forall c: ClientId :: OnceExactlyIf(Feed(l, c), i, c in l.log[i].delivered)
  {
    RunKeeps(init, acts);
    var s := Exec(init, acts);
    var l := s.logs;
    assert EntryOk(l.log, i);
    forall c: ClientId
      ensures c in l.log[i].delivered <==> c in l.log[i].members && HadRoom(l.log, Feed(l, c), c, i)
      ensures OnceExactlyIf(Feed(l, c), i, c in l.log[i].delivered)
    {
      assert ClientOk(l, s.store.roomIds, init.store.table, c);
      assert DropOk(l.log, Feed(l, c), c, Taken(l, c), i);
      OnceInFeed(l.log, Feed(l, c), c, Taken(l, c), i);
    }
    assert Missed(l, i) == l.log[i].members - l.log[i].delivered;
  }

  /** The members whose queue was full when broadcast i was made. */
  function Missed(l: Logs, i: nat): set<ClientId>
    requires i < |l.log|
  {
    set c | c in l.log[i].members && !HadRoom(l.log, Feed(l, c), c, i)
  }

  /** Broadcast i is in the feed once if `got`, else not at all. */
  ghost predicate OnceExactlyIf(f: seq<Item>, i: nat, got: bool) {
    && (got <==> Live(i) in f)
    && forall p, q :: 0 <= p < |f| && 0 <= q < |f| && f[p] == f[q] == Live(i) ==> p == q
  }

  lemma OnceInFeed(log: seq<Entry>, f: seq<Item>, c: ClientId, taken: nat, i: nat)
    requires FeedOk(log, f, c, taken) && i < |log|
    ensures OnceExactlyIf(f, i, c in log[i].delivered)
  {
    forall p, q | 0 <= p < |f| && 0 <= q < |f| && f[p] == f[q] == Live(i) ensures p == q {
      FeedOrder(log, f, c, taken, i, i, p, q);
      FeedOrder(log, f, c, taken, i, i, q, p);
    }
  }

  /** A feed's queue at each broadcast: never negative, never above 8, and what was taken
      by then only grows up to what is taken now. */
  lemma QueuesAreBounded(init: Hub, acts: seq<Action>, c: ClientId, i: nat, j: nat)
    requires Initial(init) && Legal(init, acts) && PlainRun(acts) && !Exec(init, acts).panicked
    requires i <= j < |Exec(init, acts).logs.log|
    ensures var l := Exec(init, acts).logs;
            && TakenAt(l.log, c, i) <= Queued(Feed(l, c), i) <= TakenAt(l.log, c, i) + 8
            && TakenAt(l.log, c, i) <= TakenAt(l.log, c, j) <= Taken(l, c)
  {
    RunKeeps(init, acts);
    var s := Exec(init, acts);
    var log, f, taken := s.logs.log, Feed(s.logs, c), Taken(s.logs, c);
    assert ClientOk(s.logs, s.store.roomIds, init.store.table, c);
    assert DropOk(log, f, c, taken, i) && DropOk(log, f, c, taken, j) && TakenInOrder(log, c, i, j);
  }

  /** The log grew by at most one entry, which carries these taken counts. */
  ghost predicate Records(log: seq<Entry>, log': seq<Entry>, taken: map<ClientId, nat>) {
    && |log| <= |log'| <= |log| + 1 && log'[..|log|] == log
    && (|log| < |log'| ==> log'[|log|].taken == taken)
  }

  lemma BroadcastRecords(s: Hub, r: string, e: Event, who: ClientId, row: Option<Row>)
    ensures Records(s.logs.log, Broadcast(s, r, e, who, row).logs.log, s.logs.taken)
  {}

  lemma LeaveRecords(s: Hub, c: ClientId, r: string)
    ensures Records(s.logs.log, LeaveRoom(s, c, r).logs.log, s.logs.taken)
  {
    if IsMember(s, c, r) {
      BroadcastRecords(s.(mem := DropMember(s.mem, c, r)), r, UserLeft(r, Who(s, c).name), c, None);
    } else {
      assert LeaveRoom(s, c, r).logs.log == s.logs.log;
    }
  }

  lemma HistoryLog(s: Hub, c: ClientId, r: string, env: Env)
    ensures SendHistory(s, c, r, env).logs.log == s.logs.log
  {}

  /** What a join that adds a member does to the log is its broadcast alone. */
  lemma JoinLog(s: Hub, c: ClientId, r: string, env: Env)
    requires r != "" && !IsMember(s, c, r)
    ensures JoinRoom(s, c, r, env).logs.log == JoinTold(s, c, r).logs.log
  {
    HistoryLog(JoinTold(s, c, r), c, r, env);
  }

  function JoinTold(s: Hub, c: ClientId, r: string): Hub {
    Broadcast(s.(mem := AddMember(s.mem, c, r)), r, UserJoined(r, Who(s, c).name), c, None)
  }

  lemma JoinRecords(s: Hub, c: ClientId, r: string, env: Env)
    ensures Records(s.logs.log, JoinRoom(s, c, r, env).logs.log, s.logs.taken)
  {
    if r != "" && !IsMember(s, c, r) {
      BroadcastRecords(s.(mem := AddMember(s.mem, c, r)), r, UserJoined(r, Who(s, c).name), c, None);
      JoinLog(s, c, r, env);
    } else {
      assert JoinRoom(s, c, r, env).logs.log == s.logs.log;
    }
  }

  lemma SayRecords(s: Hub, c: ClientId, r: string, from: string, text: string, env: Env)
    ensures Records(s.logs.log, SendRoomMessage(s, c, r, from, text, env).logs.log, s.logs.taken)
  {
    if r != "" && r in RoomsOf(s.mem, c) {
      var row := SavedRow(s, c, r, text, env);
      var id := if row.Some? && env.idRead then row.value.id else 0;
      var msg := RoomMessage(r, id, if from == "" then Who(s, c).name else from, text);
      BroadcastRecords(s.(store := Save(s.store, row)), r, msg, c, row);
    } else {
      assert SendRoomMessage(s, c, r, from, text, env).logs.log == s.logs.log;
    }
  }

  lemma TurnRecords(s: Hub, c: ClientId, stop: Stop)
    ensures Records(s.logs.log, Turn(s, c, stop).logs.log, s.logs.taken)
  {
    if stop.Exit? {
      LeaveRecords(s, c, stop.room);
    }
  }

  /** Broadcast i is the next one after n stops of a removal, and finds these taken counts. */
  ghost predicate AfterStops(s: Hub, c: ClientId, order: seq<Stop>, n: nat, i: nat, taken: map<ClientId, nat>) {
    n <= |order| &&
    var m := LeaveAll(s, c, order[..n]).logs;
    |m.log| == i && m.taken == taken
  }

  lemma {:induction false} LeaveAllGrows(s: Hub, c: ClientId, order: seq<Stop>)
    ensures s.logs.log <= LeaveAll(s, c, order).logs.log
    decreases |order|
  {
    if order != [] && !s.panicked {
      TurnRecords(s, c, order[0]);
      LeaveAllGrows(Turn(s, c, order[0]), c, order[1..]);
    }
  }

  lemma {:induction false} LeaveAllRecords(s: Hub, c: ClientId, order: seq<Stop>, i: nat)
    requires |s.logs.log| <= i < |LeaveAll(s, c, order).logs.log|
    ensures exists n: nat :: AfterStops(s, c, order, n, i, LeaveAll(s, c, order).logs.log[i].taken)
    decreases |order|
  {
    var s1, rest := Turn(s, c, order[0]), order[1..];
    var log1, log' := s1.logs.log, LeaveAll(s1, c, rest).logs.log;
    TurnRecords(s, c, order[0]);
    LeaveAllGrows(s1, c, rest);
    if i < |log1| {
      assert log'[i] == log1[i];
      assert AfterStops(s, c, order, 0, i, log'[i].taken);
    } else {
      LeaveAllRecords(s1, c, rest, i);
      var n: nat :| AfterStops(s1, c, rest, n, i, log'[i].taken);
      StopsShift(s, c, order, n, i, log'[i].taken);
    }
  }

  lemma StopsShift(s: Hub, c: ClientId, order: seq<Stop>, n: nat, i: nat, taken: map<ClientId, nat>)
    requires order != [] && !s.panicked && AfterStops(Turn(s, c, order[0]), c, order[1..], n, i, taken)
    ensures AfterStops(s, c, order, n + 1, i, taken)
  {
    assert order[..n + 1][1..] == order[1..][..n] && order[..n + 1][0] == order[0];
  }

  lemma {:induction false} ScriptLog(s: Hub, c: ClientId, script: seq<Effect>)
    ensures PerformAll(s, c, script).logs.log == s.logs.log
    decreases |script|
  {
    if script != [] && !s.panicked {
      ScriptLog(Perform(s, c, script[0]), c, script[1..]);
    }
  }

  /** Where a step stands after n stops of the removal it performs, if it performs one. */
  function Moment(s: Hub, a: Action, n: nat): Hub {
    if a.Unregister? && a.c in s.registered && n <= |a.order| then LeaveAll(s, a.c, a.order[..n]) else s
  }

  ghost predicate RecordedAt(s: Hub, a: Action, n: nat, i: nat, taken: map<ClientId, nat>) {
    |Moment(s, a, n).logs.log| == i && Moment(s, a, n).logs.taken == taken
  }

  lemma StepRecords(s: Hub, a: Action, i: nat)
    requires !Step(s, a).panicked && |s.logs.log| <= i < |Step(s, a).logs.log|
    ensures exists n: nat :: RecordedAt(s, a, n, i, Step(s, a).logs.log[i].taken)
  {
    match a
    case Unregister(c, order) =>
      LeaveAllRecords(s, c, order, i);
      var n: nat :| AfterStops(s, c, order, n, i, Step(s, a).logs.log[i].taken);
      assert RecordedAt(s, a, n, i, Step(s, a).logs.log[i].taken);
    case Handle(c, cmd, env) =>
      CommandRecords(s, c, cmd, env);
      assert RecordedAt(s, a, 0, i, Step(s, a).logs.log[i].taken);
    case Register(_) =>
    case Take(_) =>
    case Identify(_, _) =>
    case CreateRoom(_, _) =>
    case Shutdown =>
  }

  lemma CommandRecords(s: Hub, c: ClientId, cmd: Command, env: Env)
    ensures Records(s.logs.log, HandleCommand(s, c, cmd, env).logs.log, s.logs.taken)
  {
    match cmd
    case Join(r) => JoinRecords(s, c, r, env);
    case Leave(r) => LeaveRecords(s, c, r);
    case Say(r, from, text) => SayRecords(s, c, r, from, text, env);
    case Call(_) => ScriptLog(s, c, env.script);
  }

  lemma LogGrows(s: Hub, a: Action)
    ensures s.logs.log <= Step(s, a).logs.log
  {
    match a
    case Unregister(c, order) => LeaveAllGrows(s, c, order);
    case Handle(c, cmd, env) => CommandRecords(s, c, cmd, env);
    case Register(_) =>
    case Take(_) =>
    case Identify(_, _) =>
    case CreateRoom(_, _) =>
    case Shutdown =>
  }

  /** Broadcast i was made by step k, after n stops if that is a removal, and carries the counts of
      taken events of that very moment. */
  ghost predicate MadeBy(init: Hub, acts: seq<Action>, i: nat, k: nat, n: nat) {
    && k < |acts| && i < |Exec(init, acts).logs.log|
    && RecordedAt(Exec(init, acts[..k]), acts[k], n, i, Exec(init, acts).logs.log[i].taken)
    && i < |Exec(init, acts[..k + 1]).logs.log|
  }

  /** The counts in the log are those of the run at the moment of each broadcast, also when writers
      take events between two broadcasts of one removal. */
  lemma {:induction false} TakenIsRecorded(init: Hub, acts: seq<Action>, i: nat)
    requires Initial(init) && Legal(init, acts) && !Exec(init, acts).panicked
    requires i < |Exec(init, acts).logs.log|
    ensures exists k: nat, n: nat :: MadeBy(init, acts, i, k, n)
  {
    assert acts != [];
    var last := |acts| - 1;
    if i < |Exec(init, acts[..last]).logs.log| {
      TakenIsRecorded(init, acts[..last], i);
      var k: nat, n: nat :| MadeBy(init, acts[..last], i, k, n);
      MadeStays(init, acts, i, k, n);
    } else {
      MadeLast(init, acts, i);
    }
  }

  lemma MadeStays(init: Hub, acts: seq<Action>, i: nat, k: nat, n: nat)
    requires acts != [] && MadeBy(init, acts[..|acts| - 1], i, k, n)
    ensures MadeBy(init, acts, i, k, n)
  {
    var pre := acts[..|acts| - 1];
    LogGrows(Exec(init, pre), acts[|acts| - 1]);
    assert pre[..k] == acts[..k] && pre[..k + 1] == acts[..k + 1];
  }

  lemma MadeLast(init: Hub, acts: seq<Action>, i: nat)
    requires acts != [] && !Exec(init, acts).panicked
    requires |Exec(init, acts[..|acts| - 1]).logs.log| <= i < |Exec(init, acts).logs.log|
    ensures exists k: nat, n: nat :: MadeBy(init, acts, i, k, n)
  {
    var last := |acts| - 1;
    var s := Exec(init, acts[..last]);
    StepRecords(s, acts[last], i);
    var n: nat :| RecordedAt(s, acts[last], n, i, Exec(init, acts).logs.log[i].taken);
    assert acts[..last + 1] == acts;
    assert MadeBy(init, acts, i, last, n);
  }
}
