/** Who receives call credentials, over whole runs of the server. */
module Credentials {
  import opened Common
  import opened HubSpec
  import Messages
  import opened Transport
  import opened Server
  import opened Admission

  // ---- What a step of the hub queues ----

  predicate IsCred(e: Event, v: int) {
    e.JoinInfo? && e.holder == v
  }

  predicate CredItem(x: Item, v: int) {
    x.Private? && IsCred(x.event, v)
  }

  /** Credentials of user v were ever queued to client d. */
  ghost predicate HasCred(l: Logs, d: ClientId, v: int) {
    exists x :: x in Feed(l, d) && CredItem(x, v)
  }

  lemma PushCred(l: Logs, c: ClientId, e: Event, d: ClientId, v: int)
    ensures HasCred(Push(l, c, e), d, v) ==> HasCred(l, d, v) || (d == c && IsCred(e, v))
  {
    if x :| x in Feed(Push(l, c, e), d) && CredItem(x, v) {
      assert x in Feed(l, d) || (d == c && x == Private(e, |l.log|));
    }
  }

  lemma SendCred(s: Hub, c: ClientId, e: Event, d: ClientId, v: int)
    ensures HasCred(Send(s, c, e).logs, d, v) ==> HasCred(s.logs, d, v) || (d == c && IsCred(e, v))
  {
    if c !in s.closed {
      var l := if Full(s.logs, c) then Drain(s.logs, c) else s.logs;
      PushCred(l, c, e, d, v);
      assert Feed(l, d) == Feed(s.logs, d);
    }
  }

  lemma OfferCred(s: Hub, c: ClientId, e: Event, d: ClientId, v: int)
    ensures HasCred(Offer(s, c, e).logs, d, v) ==> HasCred(s.logs, d, v) || (d == c && IsCred(e, v))
  {
    PushCred(s.logs, c, e, d, v);
  }

  lemma DrainCred(l: Logs, c: ClientId, d: ClientId, v: int)
    ensures HasCred(Drain(l, c), d, v) ==> HasCred(l, d, v)
  {
    assert Feed(Drain(l, c), d) == Feed(l, d);
  }

  lemma TakeCred(s: Hub, c: ClientId, d: ClientId, v: int)
    ensures HasCred(TakeOne(s, c).logs, d, v) ==> HasCred(s.logs, d, v)
  {
    assert Feed(TakeOne(s, c).logs, d) == Feed(s.logs, d);
  }

  lemma BroadcastCred(s: Hub, r: string, e: Event, who: ClientId, row: Option<Messages.Row>, d: ClientId, v: int)
    ensures HasCred(Broadcast(s, r, e, who, row).logs, d, v) ==> HasCred(s.logs, d, v)
  {
    var l' := Broadcast(s, r, e, who, row).logs;
    if x :| x in Feed(l', d) && CredItem(x, v) {
      assert x in Feed(s.logs, d);
    }
  }

  lemma JoinCred(s: Hub, c: ClientId, r: string, env: Env, d: ClientId, v: int)
    ensures HasCred(JoinRoom(s, c, r, env).logs, d, v) ==> HasCred(s.logs, d, v)
  {
    if r == "" {
      SendCred(s, c, Failure(r, BadRequest), d, v);
    } else if IsMember(s, c, r) {
      SendCred(s, c, Failure(r, AlreadyJoined), d, v);
    } else {
      var s1, e := s.(mem := AddMember(s.mem, c, r)), UserJoined(r, Who(s, c).name);
      BroadcastCred(s1, r, e, c, None, d, v);
      HistoryCred(Broadcast(s1, r, e, c, None), c, r, env, d, v);
    }
  }

  lemma HistoryCred(s: Hub, c: ClientId, r: string, env: Env, d: ClientId, v: int)
    ensures HasCred(SendHistory(s, c, r, env).logs, d, v) ==> HasCred(s.logs, d, v)
  {
    if r in s.store.roomIds {
      SendCred(s, c, History(r, Messages.Page(s.store.table, s.store.roomIds[r], HISTORY_LEN, None)), d, v);
    }
  }

  lemma LeaveCred(s: Hub, c: ClientId, r: string, d: ClientId, v: int)
    ensures HasCred(LeaveRoom(s, c, r).logs, d, v) ==> HasCred(s.logs, d, v)
  {
    if r !in s.mem.rooms {
      SendCred(s, c, Failure(r, RoomNotFound), d, v);
    } else if c !in s.mem.rooms[r] {
      SendCred(s, c, Failure(r, NotInRoom), d, v);
    } else {
      BroadcastCred(s.(mem := DropMember(s.mem, c, r)), r, UserLeft(r, Who(s, c).name), c, None, d, v);
    }
  }

  lemma SayCred(s: Hub, c: ClientId, r: string, from: string, text: string, env: Env, d: ClientId, v: int)
    ensures HasCred(SendRoomMessage(s, c, r, from, text, env).logs, d, v) ==> HasCred(s.logs, d, v)
  {
    if r == "" {
      SendCred(s, c, Failure(r, BadRequest), d, v);
    } else if r !in RoomsOf(s.mem, c) {
      SendCred(s, c, Failure(r, NotInRoom), d, v);
    } else {
      var row := SavedRow(s, c, r, text, env);
      var id := if row.Some? && env.idRead then row.value.id else 0;
      var msg := RoomMessage(r, id, if from == "" then Who(s, c).name else from, text);
      BroadcastCred(s.(store := Save(s.store, row)), r, msg, c, row, d, v);
    }
  }

  lemma {:induction false} LeaveAllCred(s: Hub, c: ClientId, order: seq<Stop>, d: ClientId, v: int)
    ensures HasCred(LeaveAll(s, c, order).logs, d, v) ==> HasCred(s.logs, d, v)
    decreases |order|
  {
    if order != [] && !s.panicked {
      match order[0] {
        case Exit(r) => LeaveCred(s, c, r, d, v);
        case Between(t) => TakeCred(s, t, d, v);
      }
      LeaveAllCred(Turn(s, c, order[0]), c, order[1..], d, v);
    }
  }

  /** One send of a call handler queues credentials of v to d. */
  predicate Gives(users: map<int, ClientId>, c: ClientId, effect: Effect, d: ClientId, v: int) {
    match effect
    case ToSelf(e) => d == c && IsCred(e, v)
    case ToUser(u, e) => u in users && users[u] == d && IsCred(e, v)
    case Pause(_) => false
  }

  lemma {:induction false} ScriptCred(s: Hub, c: ClientId, script: seq<Effect>, d: ClientId, v: int)
    ensures HasCred(PerformAll(s, c, script).logs, d, v) ==>
              HasCred(s.logs, d, v) || exists k :: 0 <= k < |script| && Gives(s.userClients, c, script[k], d, v)
    decreases |script|
  {
    if script != [] && !s.panicked {
      var s1, rest := Perform(s, c, script[0]), script[1..];
      match script[0] {
        case ToSelf(e) => SendCred(s, c, e, d, v);
        case ToUser(u, e) => if u in s.userClients { OfferCred(s, s.userClients[u], e, d, v); }
        case Pause(t) => TakeCred(s, t, d, v);
      }
      ScriptCred(s1, c, rest, d, v);
      if k :| 0 <= k < |rest| && Gives(s1.userClients, c, rest[k], d, v) {
        assert rest[k] == script[k + 1];
      }
    }
  }

  /** Only a call command's own sends queue credentials. */
  lemma StepCred(s: Hub, a: Action, d: ClientId, v: int)
    requires HasCred(Step(s, a).logs, d, v) && !HasCred(s.logs, d, v)
    ensures a.Handle? && a.cmd.Call?
    ensures exists k :: 0 <= k < |a.env.script| && Gives(s.userClients, a.c, a.env.script[k], d, v)
  {
    match a
    case Handle(c, Join(r), env) => JoinCred(s, c, r, env, d, v);
    case Handle(c, Leave(r), _) => LeaveCred(s, c, r, d, v);
    case Handle(c, Say(r, from, text), env) => SayCred(s, c, r, from, text, env, d, v);
    case Handle(c, Call(_), env) => ScriptCred(s, c, env.script, d, v);
    case Unregister(c, order) => LeaveAllCred(s, c, order, d, v);
    case Take(c) => DrainCred(s.logs, c, d, v);
    case Register(_) =>
    case Identify(_, _) =>
    case CreateRoom(_, _) =>
    case Shutdown =>
  }

  // ---- User ids come from tokens ----

  /** A token for user v was validated on c's connection. */
  ghost predicate VouchedFor(moves: seq<Move>, c: ClientId, v: int) {
    exists id :: Vouched(moves, c, id) && id.userId == v
  }

  lemma VouchedForStays(moves: seq<Move>, c: ClientId, v: int)
    requires moves != [] && VouchedFor(Init(moves), c, v)
    ensures VouchedFor(moves, c, v)
  {
    var id :| Vouched(Init(moves), c, id) && id.userId == v;
    VouchedStays(moves, c, id);
  }

  /** What a move does to a client's user id: nothing, unless it connects or a token is accepted. */
  lemma IdAfter(s: Sys, mv: Move, c: ClientId)
    requires CanMove(s, mv) && (mv.Receive? ==> mv.c in s.pipe.sent)
    ensures var was, is_ := Who(s.hub, c).userId, Who(Next(s, mv).hub, c).userId;
            || is_ == was
            || (mv.Connect? && mv.c == c && is_ == 0)
            || Vouches(mv, c, Who(Next(s, mv).hub, c))
    ensures c in Next(s, mv).pipe.sent ==> c in s.pipe.sent || (mv.Connect? && mv.c == c)
  {
    if ActionOf(s, mv).Some? {
      WhoAfter(s.hub, ActionOf(s, mv).value, c);
    }
  }

  lemma {:induction false} ConnsAreSent(init: Sys, moves: seq<Move>, c: ClientId)
    requires IsRun(init, moves) && c in Run(init, moves).conns
    ensures c in Run(init, moves).pipe.sent
  {
    if moves != [] {
      var s, mv := Run(init, Init(moves)), Last(moves);
      ConnAfter(s, mv, c);
      if c in s.conns {
        ConnsAreSent(init, Init(moves), c);
      }
    }
  }

  lemma ConnAfter(s: Sys, mv: Move, c: ClientId)
    requires CanMove(s, mv)
    ensures c in Next(s, mv).conns ==> c in s.conns || c in Next(s, mv).pipe.sent
    ensures c in s.pipe.sent ==> c in Next(s, mv).pipe.sent
  {}

  lemma ReaderConnected(init: Sys, moves: seq<Move>)
    requires IsRun(init, moves) && moves != []
    ensures Last(moves).Receive? ==> Last(moves).c in Run(init, Init(moves)).pipe.sent
  {
    if Last(moves).Receive? {
      ConnsAreSent(init, Init(moves), Last(moves).c);
    }
  }

  /** Tokens required or not: a connected client has a user id only from a token validated on it. */
  lemma {:induction false} IdIsVouched(init: Sys, moves: seq<Move>, c: ClientId)
    requires IsRun(init, moves) && c in Run(init, moves).pipe.sent && Who(Run(init, moves).hub, c).userId != 0
    ensures VouchedFor(moves, c, Who(Run(init, moves).hub, c).userId)
  {
    if moves != [] {
      var s, mv := Run(init, Init(moves)), Last(moves);
      ReaderConnected(init, moves);
      IdAfter(s, mv, c);
      if Vouches(mv, c, Who(Next(s, mv).hub, c)) {
        assert Vouches(moves[|moves| - 1], c, Who(Next(s, mv).hub, c));
        assert Vouched(moves, c, Who(Next(s, mv).hub, c));
      } else if c in s.pipe.sent && !(mv.Connect? && mv.c == c) {
        IdIsVouched(init, Init(moves), c);
        VouchedForStays(moves, c, Who(s.hub, c).userId);
      }
    }
  }

  lemma TargetsAfter(s: Hub, a: Action, u: int)
    requires u in Step(s, a).userClients
    ensures || (u in s.userClients && s.userClients[u] == Step(s, a).userClients[u])
            || (a.Register? && Step(s, a).userClients[u] == a.c && Who(s, a.c).userId == u && u > 0)
  {}

  /** A user's target is a client on whose connection a token of that user was validated. */
  lemma {:induction false} TargetIsVouched(init: Sys, moves: seq<Move>, u: int)
    requires IsRun(init, moves) && u in Run(init, moves).hub.userClients
    ensures VouchedFor(moves, Run(init, moves).hub.userClients[u], u)
  {
    if moves != [] {
      var s, mv := Run(init, Init(moves)), Last(moves);
      LastTarget(s, mv, u);
      var c := Run(init, moves).hub.userClients[u];
      if u in s.hub.userClients && s.hub.userClients[u] == c {
        TargetIsVouched(init, Init(moves), u);
      } else {
        IdIsVouched(init, Init(moves), c);
      }
      VouchedForStays(moves, c, u);
    }
  }

  lemma LastTarget(s: Sys, mv: Move, u: int)
    requires CanMove(s, mv) && u in Next(s, mv).hub.userClients
    ensures var c := Next(s, mv).hub.userClients[u];
            || (u in s.hub.userClients && s.hub.userClients[u] == c)
            || (c in s.pipe.sent && Who(s.hub, c).userId == u && u > 0)
  {
    if ActionOf(s, mv).Some? {
      TargetsAfter(s.hub, ActionOf(s, mv).value, u);
    }
  }

  // ---- Credentials ----

  /** A call handler sends credentials only to the user they are for; to its own client only if that
      has a user id. */
  predicate HonestTo(u: int, effect: Effect) {
    match effect
    case ToSelf(e) => e.JoinInfo? ==> e.holder == u && u != 0
    case ToUser(v, e) => e.JoinInfo? ==> e.holder == v
    case Pause(_) => true
  }

  ghost predicate HonestMove(s: Sys, mv: Move) {
    mv.HandleNext? && s.pipe.shared != [] && s.pipe.shared[0].cmd.Call? ==>
      forall k :: 0 <= k < |mv.env.script| ==> HonestTo(Who(s.hub, s.pipe.shared[0].c).userId, mv.env.script[k])
  }

  ghost predicate HonestRun(init: Sys, moves: seq<Move>) {
    moves == [] || (HonestRun(init, Init(moves)) && HonestMove(Run(init, Init(moves)), Last(moves)))
  }

  lemma SharedWasSent(init: Sys, moves: seq<Move>)
    requires IsRun(init, moves) && Run(init, moves).pipe.shared != []
    ensures Run(init, moves).pipe.shared[0].c in Run(init, moves).pipe.sent
  {
    var p := Run(init, moves).pipe;
    OfHas(p.shared, p.shared[0]);
    PipelineIsFifo(init, moves, p.shared[0].c);
  }

  /** In every run whose call handlers are honest: credentials of a user were queued only to clients on
      whose connection a token of that very user was validated. */
  lemma {:induction false} CredentialsReachTheirUser(init: Sys, moves: seq<Move>, d: ClientId, v: int)
    requires IsRun(init, moves) && HonestRun(init, moves) && HasCred(Run(init, moves).hub.logs, d, v)
    ensures VouchedFor(moves, d, v)
  {
    if moves != [] {
      var pre, s, mv := Init(moves), Run(init, Init(moves)), Last(moves);
      if HasCred(s.hub.logs, d, v) {
        CredentialsReachTheirUser(init, pre, d, v);
      } else {
        GivenLast(s, mv, d, v);
        var c := s.pipe.shared[0].c;
        if d in s.hub.userClients.Values && v in s.hub.userClients && s.hub.userClients[v] == d {
          TargetIsVouched(init, pre, v);
        } else {
          SharedWasSent(init, pre);
          IdIsVouched(init, pre, c);
        }
      }
      VouchedForStays(moves, d, v);
    }
  }

  lemma GivenLast(s: Sys, mv: Move, d: ClientId, v: int)
    requires CanMove(s, mv) && HonestMove(s, mv)
    requires HasCred(Next(s, mv).hub.logs, d, v) && !HasCred(s.hub.logs, d, v)
    ensures mv.HandleNext?
    ensures || (v in s.hub.userClients && s.hub.userClients[v] == d)
            || (d == s.pipe.shared[0].c && Who(s.hub, d).userId == v && v != 0)
  {
    var a := ActionOf(s, mv).value;
    StepCred(s.hub, a, d, v);
    var k :| 0 <= k < |a.env.script| && Gives(s.hub.userClients, a.c, a.env.script[k], d, v);
    assert HonestTo(Who(s.hub, s.pipe.shared[0].c).userId, mv.env.script[k]);
  }
}
