/** Who gets into rooms and whose messages are stored, over whole runs of the server. */
module Admission {
  import opened Common
  import opened HubSpec
  import Messages
  import HubInvariants
  import HubTheorems
  import HubHistory
  import Rooms
  import opened Transport
  import opened Server

  lemma {:induction false} LeavingAddsNobody(s: Hub, c: ClientId, order: seq<Stop>, d: ClientId, r: string)
    requires IsMember(LeaveAll(s, c, order), d, r)
    ensures IsMember(s, d, r)
    decreases |order|
  {
    if order != [] && !s.panicked {
      LeavingAddsNobody(Turn(s, c, order[0]), c, order[1..], d, r);
    }
  }

  lemma CommandAdds(s: Hub, c: ClientId, cmd: Command, env: Env, d: ClientId, r: string)
    requires IsMember(HandleCommand(s, c, cmd, env), d, r) && !IsMember(s, d, r)
    ensures c == d && cmd == Join(r)
  {
    match cmd
    case Join(_) =>
    case Leave(_) =>
    case Say(_, _, _) =>
    case Call(_) =>
  }

  /** The only way into a room is one's own join command. */
  lemma NewMemberJoined(s: Hub, a: Action, d: ClientId, r: string)
    requires IsMember(Step(s, a), d, r) && !IsMember(s, d, r)
    ensures a.Handle? && a.c == d && a.cmd == Join(r)
  {
    match a
    case Handle(c, cmd, env) => CommandAdds(s, c, cmd, env, d, r);
    case Unregister(c, order) => if c in s.registered { LeavingAddsNobody(s, c, order, d, r); }
    case Register(_) =>
    case Take(_) =>
    case Identify(_, _) =>
    case CreateRoom(_, _) =>
    case Shutdown =>
  }

  /** The store allows user id into room r: a public room, or a private or direct one it belongs to. */
  predicate Permits(s: Sys, user: int, r: string) {
    r in s.hub.store.roomIds &&
    var id := s.hub.store.roomIds[r];
    var kind := KindOf(s.rooms, id);
    kind.Public? || ((kind.Private? || kind.Direct?) && (user, id) in s.rooms.members)
  }

  /** A hello on c's connection presented a valid token for this identity. */
  ghost predicate Vouched(moves: seq<Move>, c: ClientId, id: Identity) {
    exists k :: 0 <= k < |moves| && Vouches(moves[k], c, id)
  }

  predicate Vouches(mv: Move, c: ClientId, id: Identity) {
    mv.Receive? && mv.c == c && mv.frame.Hello? && mv.frame.versionOk && mv.frame.token == ValidToken(id)
  }

  /** Move k of the run reads c's request to join r, while the store allows it for the identity that
      c then has; when tokens are required, a token for that very identity was validated before. */
  ghost predicate AdmittedAt(init: Sys, moves: seq<Move>, k: nat, c: ClientId, r: string)
    requires k < |moves|
  {
    var s := Run(init, moves[..k]);
    && moves[k].Receive? && moves[k].c == c && moves[k].frame == Request(Join(r))
    && Permits(s, Who(s.hub, c).userId, r)
    && (init.cfg.jwtRequired ==> Vouched(moves[..k], c, Who(s.hub, c)))
  }

  ghost predicate Admitted(init: Sys, moves: seq<Move>, c: ClientId, r: string) {
    exists k: nat :: k < |moves| && AdmittedAt(init, moves, k, c, r)
  }

  lemma AdmittedStays(init: Sys, moves: seq<Move>, c: ClientId, r: string)
    requires moves != [] && Admitted(init, Init(moves), c, r)
    ensures Admitted(init, moves, c, r)
  {
    var k: nat :| k < |Init(moves)| && AdmittedAt(init, Init(moves), k, c, r);
    assert Init(moves)[..k] == moves[..k];
    assert AdmittedAt(init, moves, k, c, r);
  }

  lemma VouchedStays(moves: seq<Move>, c: ClientId, id: Identity)
    requires moves != [] && Vouched(Init(moves), c, id)
    ensures Vouched(moves, c, id)
  {}

  lemma WhoAfter(s: Hub, a: Action, c: ClientId)
    ensures Who(Step(s, a), c) == if a.Identify? && a.c == c then a.identity else Who(s, c)
  {
    StepFrame(s, a);
  }

  /** When tokens are required, an authenticated connection carries the identity of a token that
      was validated on it. */
  lemma {:induction false} AuthenticatedIsVouched(init: Sys, moves: seq<Move>, c: ClientId)
    requires IsRun(init, moves) && init.cfg.jwtRequired
    requires c in Run(init, moves).conns && Run(init, moves).conns[c].authenticated
    ensures Vouched(moves, c, Who(Run(init, moves).hub, c))
  {
    if moves != [] {
      var s, mv := Run(init, Init(moves)), Last(moves);
      CfgKept(init, Init(moves));
      if ActionOf(s, mv).Some? {
        WhoAfter(s.hub, ActionOf(s, mv).value, c);
      }
      if mv.Receive? && mv.c == c && mv.frame.Hello? && Reading(s, c, mv.frame, mv.lookups).2.Silent? {
        assert Vouches(moves[|moves| - 1], c, Who(Run(init, moves).hub, c));
      } else {
        AuthenticatedIsVouched(init, Init(moves), c);
        VouchedStays(moves, c, Who(s.hub, c));
      }
    }
  }

  lemma {:induction false} CfgKept(init: Sys, moves: seq<Move>)
    ensures Run(init, moves).cfg == init.cfg
  {
    if moves != [] {
      CfgKept(init, Init(moves));
    }
  }

  /** With tokens required, a command enters the pipeline only after a valid token was presented on
      that connection, and the client then has the identity of such a token. */
  lemma EnqueueNeedsToken(init: Sys, moves: seq<Move>, c: ClientId)
    requires moves != [] && IsRun(init, moves) && init.cfg.jwtRequired
    requires Held(Run(init, moves).pipe.sent, c) != Held(Run(init, Init(moves)).pipe.sent, c)
    ensures Vouched(Init(moves), c, Who(Run(init, Init(moves)).hub, c))
  {
    CfgKept(init, Init(moves));
    SendersAreAuthenticated(Run(init, Init(moves)), Last(moves), c);
    AuthenticatedIsVouched(init, Init(moves), c);
  }

  lemma SendersAreAuthenticated(s: Sys, mv: Move, c: ClientId)
    requires CanMove(s, mv) && s.cfg.jwtRequired
    requires Held(NextPipe(s, mv).sent, c) != Held(s.pipe.sent, c)
    ensures c in s.conns && s.conns[c].authenticated
  {}

  lemma {:induction false} SentJoinsAdmitted(init: Sys, moves: seq<Move>, c: ClientId, r: string)
    requires IsRun(init, moves) && Join(r) in Held(Run(init, moves).pipe.sent, c)
    ensures Admitted(init, moves, c, r)
  {
    if moves != [] {
      var s, mv := Run(init, Init(moves)), Last(moves);
      if Join(r) in Held(s.pipe.sent, c) {
        SentJoinsAdmitted(init, Init(moves), c, r);
        AdmittedStays(init, moves, c, r);
      } else {
        CfgKept(init, Init(moves));
        if init.cfg.jwtRequired {
          EnqueueNeedsToken(init, moves, c);
        }
        assert moves[..|moves| - 1] == Init(moves);
        assert AdmittedAt(init, moves, |moves| - 1, c, r);
      }
    }
  }

  lemma {:induction false} OfHas(jobs: seq<Job>, j: Job)
    requires j in jobs
    ensures j.cmd in Of(jobs, j.c)
  {
    var pre, last := jobs[..|jobs| - 1], jobs[|jobs| - 1];
    if last != j {
      assert jobs == pre + [last];
      OfHas(pre, j);
    }
  }

  lemma {:induction false} MemberWasHandled(init: Sys, moves: seq<Move>, c: ClientId, r: string)
    requires IsRun(init, moves) && IsMember(Run(init, moves).hub, c, r)
    ensures Job(c, Join(r)) in Run(init, moves).pipe.handled
  {
    if moves != [] {
      var s, mv := Run(init, Init(moves)), Last(moves);
      if IsMember(s.hub, c, r) {
        MemberWasHandled(init, Init(moves), c, r);
      } else {
        NewMemberJoined(s.hub, ActionOf(s, mv).value, c, r);
      }
    }
  }

  /** Whoever is in a room of the hub asked for it on its own connection and was let in: at some
      earlier moment the stored room was public, or private or direct with the client's user a
      member; and if tokens are required, that user came from a token validated before. */
  lemma MembershipWasAdmitted(init: Sys, moves: seq<Move>, c: ClientId, r: string)
    requires IsRun(init, moves) && IsMember(Run(init, moves).hub, c, r)
    ensures Admitted(init, moves, c, r)
  {
    var p := Run(init, moves).pipe;
    MemberWasHandled(init, moves, c, r);
    OfHas(p.handled, Job(c, Join(r)));
    PipelineIsFifo(init, moves, c);
    SentJoinsAdmitted(init, moves, c, r);
  }

  // ---- What a client is sent ----

  /** The members of one broadcast were in its room already, or it is this client's own join. */
  predicate FromMembers(e: Entry, m: Membership, joiner: Option<Job>) {
    forall d :: d in e.members ==> d in MembersOf(m, e.room) || joiner == Some(Job(d, Join(e.room)))
  }

  /** What the log grew by was addressed to earlier members, or to the one who just joined. */
  ghost predicate AddressedTo(log: seq<Entry>, log': seq<Entry>, m: Membership, joiner: Option<Job>) {
    log <= log' && forall i :: |log| <= i < |log'| ==> FromMembers(log'[i], m, joiner)
  }

  lemma LeaveLog(s: Hub, c: ClientId, r: string)
    requires IsMember(s, c, r)
    ensures LeaveRoom(s, c, r).logs.log == LeaveTold(s, c, r).logs.log
  {}

  function LeaveTold(s: Hub, c: ClientId, r: string): Hub {
    Broadcast(s.(mem := DropMember(s.mem, c, r)), r, UserLeft(r, Who(s, c).name), c, None)
  }

  lemma LeaveAddresses(s: Hub, c: ClientId, r: string, joiner: Option<Job>)
    ensures AddressedTo(s.logs.log, LeaveRoom(s, c, r).logs.log, s.mem, joiner)
  {
    if IsMember(s, c, r) {
      LeaveLog(s, c, r);
      assert AddressedTo(s.logs.log, LeaveTold(s, c, r).logs.log, s.mem, joiner);
    } else {
      assert LeaveRoom(s, c, r).logs.log == s.logs.log;
    }
  }

  lemma {:induction false} LeaveAllAddresses(s: Hub, c: ClientId, order: seq<Stop>, joiner: Option<Job>)
    ensures AddressedTo(s.logs.log, LeaveAll(s, c, order).logs.log, s.mem, joiner)
    decreases |order|
  {
    if order != [] && !s.panicked {
      var s1, rest := Turn(s, c, order[0]), order[1..];
      var l0, l1, l2 := s.logs.log, s1.logs.log, LeaveAll(s1, c, rest).logs.log;
      if order[0].Exit? {
        LeaveAddresses(s, c, order[0].room, joiner);
      }
      LeaveAllAddresses(s1, c, rest, joiner);
      forall i | |l0| <= i < |l2| ensures FromMembers(l2[i], s.mem, joiner) {
        if i < |l1| {
          assert l2[i] == l1[i];
        } else {
          assert FromMembers(l2[i], s1.mem, joiner);
          TurnAddsNobody(s, c, order[0], l2[i].room);
        }
      }
    }
  }

  lemma TurnAddsNobody(s: Hub, c: ClientId, stop: Stop, r: string)
    ensures MembersOf(Turn(s, c, stop).mem, r) <= MembersOf(s.mem, r)
  {}

  lemma JoinAddresses(s: Hub, c: ClientId, r: string, env: Env)
    ensures AddressedTo(s.logs.log, JoinRoom(s, c, r, env).logs.log, s.mem, Some(Job(c, Join(r))))
  {
    if r != "" && !IsMember(s, c, r) {
      assert AddressedTo(s.logs.log, HubTheorems.JoinTold(s, c, r).logs.log, s.mem, Some(Job(c, Join(r))));
      HubTheorems.JoinLog(s, c, r, env);
    } else {
      assert JoinRoom(s, c, r, env).logs.log == s.logs.log;
    }
  }

  lemma SayAddresses(s: Hub, c: ClientId, r: string, from: string, text: string, env: Env, joiner: Option<Job>)
    ensures AddressedTo(s.logs.log, SendRoomMessage(s, c, r, from, text, env).logs.log, s.mem, joiner)
  {
    if r == "" || r !in RoomsOf(s.mem, c) {
      assert SendRoomMessage(s, c, r, from, text, env).logs.log == s.logs.log;
    }
  }

  /** The client and command that a step handles, if any. */
  function JobOf(a: Action): Option<Job> {
    if a.Handle? then Some(Job(a.c, a.cmd)) else None
  }

  lemma StepAddresses(s: Hub, a: Action)
    ensures AddressedTo(s.logs.log, Step(s, a).logs.log, s.mem, JobOf(a))
  {
    match a
    case Handle(c, Join(r), env) => JoinAddresses(s, c, r, env);
    case Handle(c, Leave(r), _) => LeaveAddresses(s, c, r, JobOf(a));
    case Handle(c, Say(r, from, text), env) => SayAddresses(s, c, r, from, text, env, JobOf(a));
    case Handle(c, Call(_), env) => HubTheorems.ScriptLog(s, c, env.script);
    case Unregister(d, order) => LeaveAllAddresses(s, d, order, JobOf(a));
    case Register(_) =>
    case Take(_) =>
    case Identify(_, _) =>
    case CreateRoom(_, _) =>
    case Shutdown =>
  }

  /** Whoever a broadcast was addressed to had a join of its room handled. */
  lemma {:induction false} AddresseeJoined(init: Sys, moves: seq<Move>, i: nat, c: ClientId)
    requires IsRun(init, moves) && i < |Run(init, moves).hub.logs.log| && c in Run(init, moves).hub.logs.log[i].members
    ensures Job(c, Join(Run(init, moves).hub.logs.log[i].room)) in Run(init, moves).pipe.handled
  {
    if moves != [] {
      var s, mv := Run(init, Init(moves)), Last(moves);
      LastAddresses(s, mv, i, c);
      if i < |s.hub.logs.log| {
        AddresseeJoined(init, Init(moves), i, c);
      } else if IsMember(s.hub, c, Run(init, moves).hub.logs.log[i].room) {
        MemberWasHandled(init, Init(moves), c, Run(init, moves).hub.logs.log[i].room);
      }
    }
  }

  lemma LastAddresses(s: Sys, mv: Move, i: nat, c: ClientId)
    requires CanMove(s, mv) && i < |Next(s, mv).hub.logs.log| && c in Next(s, mv).hub.logs.log[i].members
    ensures s.pipe.handled <= Next(s, mv).pipe.handled
    ensures var log, e := s.hub.logs.log, Next(s, mv).hub.logs.log[i];
            if i < |log| then e == log[i]
            else IsMember(s.hub, c, e.room) || Job(c, Join(e.room)) in Next(s, mv).pipe.handled
  {
    var a := ActionOf(s, mv);
    HandledBy(s, mv);
    if a.Some? {
      StepAddresses(s.hub, a.value);
      var log' := Next(s, mv).hub.logs.log;
      assert i >= |s.hub.logs.log| ==> FromMembers(log'[i], s.hub.mem, JobOf(a.value));
    }
  }

  /** The room an item of a feed is about: of a broadcast, or of a history. */
  ghost predicate IsAbout(log: seq<Entry>, x: Item, r: string) {
    match x
    case Live(i) => i < |log| && log[i].room == r
    case Private(e, _) => e.History? && e.room == r
  }

  /** In every run, all broadcasts and histories that a client was ever sent are of rooms that it had
      asked for and been let into. */
  lemma FeedWasAdmitted(init: Sys, moves: seq<Move>, c: ClientId, x: Item, r: string)
    requires IsRun(init, moves) && !Run(init, moves).hub.panicked
    requires x in Feed(Run(init, moves).hub.logs, c) && IsAbout(Run(init, moves).hub.logs.log, x, r)
    ensures Admitted(init, moves, c, r)
  {
    var s, acts := Run(init, moves), Trace(init, moves);
    SystemRunsTheHub(init, moves);
    HubTheorems.RunKeeps(init.hub, acts);
    assert HubInvariants.ClientOk(s.hub.logs, s.hub.store.roomIds, init.hub.store.table, c);
    match x
    case Live(i) =>
      HubTheorems.BroadcastIsConserved(init.hub, acts, i);
      assert HubTheorems.OnceExactlyIf(Feed(s.hub.logs, c), i, c in s.hub.logs.log[i].delivered);
      AddresseeAdmitted(init, moves, i, c);
    case Private(History(_, rows), at) =>
      HubHistory.HistoryFollowsJoin(init.hub, acts, c, r, rows, at);
      HubHistory.JoinerIsMember(s.hub.logs.log, at, c, r);
      assert HubInvariants.EntryOk(s.hub.logs.log, at - 1);
      AddresseeAdmitted(init, moves, at - 1, c);
    case Private(_, _) =>
  }

  lemma AddresseeAdmitted(init: Sys, moves: seq<Move>, i: nat, c: ClientId)
    requires IsRun(init, moves) && i < |Run(init, moves).hub.logs.log| && c in Run(init, moves).hub.logs.log[i].members
    ensures Admitted(init, moves, c, Run(init, moves).hub.logs.log[i].room)
  {
    var p, r := Run(init, moves).pipe, Run(init, moves).hub.logs.log[i].room;
    AddresseeJoined(init, moves, i, c);
    OfHas(p.handled, Job(c, Join(r)));
    PipelineIsFifo(init, moves, c);
    SentJoinsAdmitted(init, moves, c, r);
  }

  // ---- Direct rooms ----

  lemma {:induction false} RunPrefix(init: Sys, moves: seq<Move>, k: nat)
    requires IsRun(init, moves) && k <= |moves|
    ensures IsRun(init, moves[..k])
  {
    if k < |moves| {
      RunPrefix(init, Init(moves), k);
      assert Init(moves)[..k] == moves[..k];
    } else {
      assert moves[..k] == moves;
    }
  }

  /** Stored rooms neither change nor disappear during a run. */
  lemma {:induction false} RoomPersists(init: Sys, moves: seq<Move>, k: nat, id: int)
    requires IsRun(init, moves) && k <= |moves|
    ensures Rooms.RowKept(Run(init, moves[..k]).rooms, Run(init, moves).rooms, id)
  {
    if k < |moves| {
      var pre := Init(moves);
      assert pre[..k] == moves[..k];
      RoomPersists(init, pre, k, id);
      RunRoomsOk(init, pre);
      LastKeepsRows(Run(init, pre), Last(moves), id);
    } else {
      assert moves[..k] == moves;
    }
  }

  lemma LastKeepsRows(s: Sys, mv: Move, id: int)
    requires CanMove(s, mv) && RoomsOk(s)
    ensures Rooms.RowKept(s.rooms, Next(s, mv).rooms, id)
  {
    if mv.RoomDo? {
      Rooms.StepKeeps(s.rooms, mv.op);
    }
  }

  /** A room operation of the run is one of its moves. */
  lemma {:induction false} OpIsMove(moves: seq<Move>, op: Rooms.Op)
    requires op in RoomOps(moves)
    ensures RoomDo(op) in moves
  {
    if Last(moves) != RoomDo(op) {
      OpIsMove(Init(moves), op);
    }
  }

  /** What the join check knew about the room is what the store says of it later. */
  lemma SameRoomLater(init: Sys, moves: seq<Move>, k: nat, r: string, key: string)
    requires IsRun(init, moves) && k <= |moves|
    requires r in Run(init, moves).hub.store.roomIds && r in Run(init, moves[..k]).hub.store.roomIds
    requires Rooms.KeyAnswer(Run(init, moves).rooms, key, Some(Run(init, moves).hub.store.roomIds[r]))
    ensures var s, id := Run(init, moves[..k]), Run(init, moves).hub.store.roomIds[r];
            && s.hub.store.roomIds[r] == id
            && Rooms.KeyAnswer(s.rooms, key, Some(id)) && KindOf(s.rooms, id) == Rooms.Direct
  {
    var s, s' := Run(init, moves[..k]), Run(init, moves);
    var id := s.hub.store.roomIds[r];
    RunPrefix(init, moves, k);
    RunRoomsOk(init, moves[..k]);
    RunRoomsOk(init, moves);
    assert NameAgrees(s.hub.store.roomIds, s.rooms, r);
    RoomPersists(init, moves, k, id);
    assert IdAgrees(s'.hub.store.roomIds, s'.rooms, id);
    Rooms.KeysUnique(s'.rooms, id, id, key);
  }

  /** Whoever is in the hub room of a pair's direct room was admitted as one of the two, or as a user
      that was a member from the start or that the join endpoint had added before. */
  lemma DirectRoomIsForItsPair(init: Sys, moves: seq<Move>, c: ClientId, r: string, u: int, v: int)
    requires IsRun(init, moves) && IsMember(Run(init, moves).hub, c, r)
    requires r in Run(init, moves).hub.store.roomIds
    requires Rooms.KeyAnswer(Run(init, moves).rooms, Rooms.DirectKey(u, v), Some(Run(init, moves).hub.store.roomIds[r]))
    ensures var id := Run(init, moves).hub.store.roomIds[r];
            exists k: nat :: k < |moves| && AdmittedAt(init, moves, k, c, r)
                             && MayEnter(init, moves[..k], Who(Run(init, moves[..k]).hub, c).userId, id, u, v)
  {
    MembershipWasAdmitted(init, moves, c, r);
    var k: nat :| k < |moves| && AdmittedAt(init, moves, k, c, r);
    var s, id := Run(init, moves[..k]), Run(init, moves).hub.store.roomIds[r];
    var m := Who(s.hub, c).userId;
    SameRoomLater(init, moves, k, r, Rooms.DirectKey(u, v));
    RunPrefix(init, moves, k);
    RunStarts(init, moves);
    SystemRunsTheRooms(init, moves[..k]);
    var ops := RoomOps(moves[..k]);
    Rooms.DirectMembers(init.rooms, ops, m, id, u, v);
    if Rooms.Join(m, id) in ops {
      OpIsMove(moves[..k], Rooms.Join(m, id));
    }
    assert MayEnter(init, moves[..k], m, id, u, v);
  }

  /** m is one of the two users, or was a member from the start, or joined by the join endpoint. */
  predicate MayEnter(init: Sys, moves: seq<Move>, m: int, id: int, u: int, v: int) {
    m == u || m == v || (m, id) in init.rooms.members || RoomDo(Rooms.Join(m, id)) in moves
  }

  lemma {:induction false} RunStarts(init: Sys, moves: seq<Move>)
    requires IsRun(init, moves)
    ensures Start(init)
  {
    if moves != [] {
      RunStarts(init, Init(moves));
    }
  }

  // ---- Saved messages ----

  /** One broadcast saved nothing, or a row of this user. */
  predicate SavedFor(e: Entry, c: ClientId, id: Identity) {
    e.row.Some? ==> e.who == c && e.row.value.userId == id.userId && !id.isGuest && id.userId > 0
  }

  /** The log grew, and what it grew by saved at most rows of this user. */
  ghost predicate GrewBy(log: seq<Entry>, log': seq<Entry>, c: ClientId, id: Identity) {
    && |log| <= |log'| && log'[..|log|] == log
    && forall i :: |log| <= i < |log'| ==> SavedFor(log'[i], c, id)
  }

  lemma BroadcastGrows(s: Hub, r: string, e: Event, who: ClientId, row: Option<Messages.Row>, c: ClientId, id: Identity)
    requires row.Some? ==> who == c && row.value.userId == id.userId && !id.isGuest && id.userId > 0
    ensures GrewBy(s.logs.log, Broadcast(s, r, e, who, row).logs.log, c, id)
  {}

  lemma LeaveGrows(s: Hub, d: ClientId, r: string, c: ClientId, id: Identity)
    ensures GrewBy(s.logs.log, LeaveRoom(s, d, r).logs.log, c, id)
  {
    BroadcastGrows(s.(mem := DropMember(s.mem, d, r)), r, UserLeft(r, Who(s, d).name), d, None, c, id);
  }

  lemma {:induction false} LeaveAllGrows(s: Hub, d: ClientId, order: seq<Stop>, c: ClientId, id: Identity)
    ensures GrewBy(s.logs.log, LeaveAll(s, d, order).logs.log, c, id)
    decreases |order|
  {
    if order != [] && !s.panicked {
      var s1 := Turn(s, d, order[0]);
      var l0, l1, l2 := s.logs.log, s1.logs.log, LeaveAll(s1, d, order[1..]).logs.log;
      if order[0].Exit? {
        LeaveGrows(s, d, order[0].room, c, id);
      }
      LeaveAllGrows(s1, d, order[1..], c, id);
      assert l2[..|l0|] == l2[..|l1|][..|l0|];
      forall i | |l0| <= i < |l2| ensures SavedFor(l2[i], c, id) {
        assert i < |l1| ==> l2[i] == l2[..|l1|][i] == l1[i];
      }
    }
  }

  lemma JoinGrows(s: Hub, c: ClientId, r: string, env: Env, id: Identity)
    ensures GrewBy(s.logs.log, JoinRoom(s, c, r, env).logs.log, c, id)
  {
    if r != "" && !IsMember(s, c, r) {
      BroadcastGrows(s.(mem := AddMember(s.mem, c, r)), r, UserJoined(r, Who(s, c).name), c, None, c, id);
      HubTheorems.JoinLog(s, c, r, env);
    } else {
      assert JoinRoom(s, c, r, env).logs.log == s.logs.log;
    }
  }

  lemma SayGrows(s: Hub, c: ClientId, r: string, from: string, text: string, env: Env)
    ensures GrewBy(s.logs.log, SendRoomMessage(s, c, r, from, text, env).logs.log, c, Who(s, c))
  {
    var row := SavedRow(s, c, r, text, env);
    var id := if row.Some? && env.idRead then row.value.id else 0;
    var msg := RoomMessage(r, id, if from == "" then Who(s, c).name else from, text);
    if r != "" && r in RoomsOf(s.mem, c) {
      BroadcastGrows(s.(store := Save(s.store, row)), r, msg, c, row, c, Who(s, c));
    } else {
      assert SendRoomMessage(s, c, r, from, text, env).logs.log == s.logs.log;
    }
  }

  /** The user a step may save a row for: that of the client whose command it handles, or nobody. */
  function Saver(s: Hub, a: Action): Identity {
    if a.Handle? then Who(s, a.c) else Identity(0, "", true)
  }

  /** Only a client's own message makes the hub save a row, and under that client's user id. */
  lemma StepSavesFor(s: Hub, a: Action, c: ClientId)
    requires a.Handle? ==> a.c == c
    ensures GrewBy(s.logs.log, Step(s, a).logs.log, c, Saver(s, a))
  {
    match a
    case Handle(_, Join(r), env) => JoinGrows(s, c, r, env, Saver(s, a));
    case Handle(_, Leave(r), _) => LeaveGrows(s, c, r, c, Saver(s, a));
    case Handle(_, Say(r, from, text), env) => SayGrows(s, c, r, from, text, env);
    case Handle(_, Call(_), env) => HubTheorems.ScriptLog(s, c, env.script);
    case Unregister(d, order) => LeaveAllGrows(s, d, order, c, Saver(s, a));
    case Register(_) =>
    case Take(_) =>
    case Identify(_, _) =>
    case CreateRoom(_, _) =>
    case Shutdown =>
  }

  /** With tokens required, whoever ever got a command through has the identity of a validated token. */
  lemma {:induction false} SendersAreVouched(init: Sys, moves: seq<Move>, c: ClientId)
    requires IsRun(init, moves) && init.cfg.jwtRequired && Held(Run(init, moves).pipe.sent, c) != []
    ensures Vouched(moves, c, Who(Run(init, moves).hub, c))
  {
    if moves != [] {
      var s, mv := Run(init, Init(moves)), Last(moves);
      CfgKept(init, Init(moves));
      if ActionOf(s, mv).Some? {
        WhoAfter(s.hub, ActionOf(s, mv).value, c);
      }
      if Held(s.pipe.sent, c) == [] {
        EnqueueNeedsToken(init, moves, c);
        VouchedStays(moves, c, Who(s.hub, c));
      } else {
        SendersAreVouched(init, Init(moves), c);
        VouchedStays(moves, c, Who(s.hub, c));
        if mv.Receive? && mv.c == c && mv.frame.Hello? && Reading(s, c, mv.frame, mv.lookups).2.Silent? {
          assert Vouches(moves[|moves| - 1], c, Who(Run(init, moves).hub, c));
        }
      }
    }
  }

  /** A validated token on the sender's connection names the user of the saved row. */
  ghost predicate Authored(moves: seq<Move>, e: Entry) {
    e.row.Some? ==>
      exists id :: Vouched(moves, e.who, id) && id.userId == e.row.value.userId && !id.isGuest
  }

  lemma AuthoredStays(moves: seq<Move>, e: Entry)
    requires moves != [] && Authored(Init(moves), e)
    ensures Authored(moves, e)
  {}

  lemma SaverIsVouched(init: Sys, moves: seq<Move>)
    requires moves != [] && IsRun(init, moves) && init.cfg.jwtRequired && Last(moves).HandleNext?
    ensures var s := Run(init, Init(moves));
            var c := s.pipe.shared[0].c;
            Vouched(moves, c, Who(s.hub, c))
  {
    var s := Run(init, Init(moves));
    var c := s.pipe.shared[0].c;
    OfHas(s.pipe.shared, s.pipe.shared[0]);
    PipelineIsFifo(init, Init(moves), c);
    SendersAreVouched(init, Init(moves), c);
    VouchedStays(moves, c, Who(s.hub, c));
  }

  /** With tokens required, every message the hub ever saved is stored under the user id of a valid,
      non-guest token presented on the very connection it came from. */
  lemma {:induction false} SavedMessagesAreAuthored(init: Sys, moves: seq<Move>, i: nat)
    requires IsRun(init, moves) && init.cfg.jwtRequired && i < |Run(init, moves).hub.logs.log|
    ensures Authored(moves, Run(init, moves).hub.logs.log[i])
  {
    if moves != [] {
      var s, mv := Run(init, Init(moves)), Last(moves);
      var log, e := s.hub.logs.log, Run(init, moves).hub.logs.log[i];
      if ActionOf(s, mv).Some? {
        NewEntry(s, mv, i);
      }
      if i < |log| {
        SavedMessagesAreAuthored(init, Init(moves), i);
        AuthoredStays(moves, log[i]);
      } else if e.row.Some? {
        SaverIsVouched(init, moves);
      }
    }
  }

  lemma NewEntry(s: Sys, mv: Move, i: nat)
    requires CanMove(s, mv) && ActionOf(s, mv).Some? && i < |Next(s, mv).hub.logs.log|
    ensures var log, e := s.hub.logs.log, Next(s, mv).hub.logs.log[i];
            if i < |log| then e == log[i]
            else e.row.Some? ==>
              mv.HandleNext? && s.pipe.shared[0].c == e.who && SavedFor(e, e.who, Who(s.hub, e.who))
  {
    var a := ActionOf(s, mv).value;
    var c := if a.Handle? then a.c else 0;
    var log, log' := s.hub.logs.log, Next(s, mv).hub.logs.log;
    StepSavesFor(s.hub, a, c);
    if i < |log| {
      assert log'[i] == log'[..|log|][i];
    } else {
      assert SavedFor(log'[i], c, Saver(s.hub, a));
    }
  }
}
