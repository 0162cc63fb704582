/**
 The hub's call command handlers: which service operations they make and which
 events they send, in order.
 */
module CallHandlers {
  import opened Common
  import opened HubSpec
  import HubInvariants
  import Calls

  /** How service and engine behave during one command. `enabled`: there is a call service; `read`: the
      hub's own read of the call works; `f`, `g`: faults of the first and second service operation;
      `found`: the live call found for a room; `members`: what listing the room's members yields. */
  datatype Reply = Reply(
    enabled: bool, read: bool, f: Calls.Faults, g: Calls.Faults, found: Option<string>,
    newId: string, media: string, now: int, members: Option<seq<int>>)

  function Refusal(code: ErrorCode): seq<Effect> {
    [ToSelf(Failure("", code))]
  }

  /** One notice to each of some users but the caller. */
  function Tell(users: seq<int>, caller: int, e: Event): seq<Effect> {
    if users == [] then []
    else (if users[0] == caller then [] else [ToUser(users[0], e)]) + Tell(users[1..], caller, e)
  }

  function Credentials(call: string, c: Calls.Creds): Event {
    JoinInfo(call, c.room, c.user)
  }

  function OnRingUser(db: Calls.Db, u: int, to: int, e: Reply): (Calls.Db, seq<Effect>) {
    var (db', r) := Calls.CreateDirectCall(db, u, to, e.newId, e.media, e.f);
    (db', if r.Err? then Refusal(CallError)
          else [ToSelf(CallNotice(r.value, CallRinging)), ToUser(to, CallNotice(r.value, CallIncoming))])
  }

  function OnRingRoom(db: Calls.Db, u: int, room: int, e: Reply): (Calls.Db, seq<Effect>) {
    var (db', r) := Calls.CreateRoomCall(db, u, room, e.found, e.newId, e.media, e.f);
    (db', if r.Err? || e.members.None? then Refusal(CallError)
          else Tell(e.members.value, u, CallNotice(r.value, CallIncoming)))
  }

  function OnAccept(db: Calls.Db, u: int, id: string, e: Reply): (Calls.Db, seq<Effect>) {
    var (db1, first) := Calls.GetJoinInfo(db, id, u, e.now, e.f);
    if first.Err? then (db1, Refusal(CallError))
    else if !e.read || id !in db1.calls then (db1, Refusal(CallNotFound))
    else
      var host := db1.calls[id].initiator;
      var (db2, second) := Calls.GetJoinInfo(db1, id, host, e.now, e.g);
      (db2, [ToSelf(Credentials(id, first.value)), ToUser(host, CallNotice(id, CallAccepted))]
            + if second.Ok? then [ToUser(host, Credentials(id, second.value))] else [])
  }

  function OnReject(db: Calls.Db, u: int, id: string, e: Reply): (Calls.Db, seq<Effect>) {
    if !e.read || id !in db.calls then (db, Refusal(CallNotFound))
    else
      var host := db.calls[id].initiator;
      var (db', r) := Calls.RejectCall(db, id, u, e.now, e.f);
      (db', if r.Err? then Refusal(CallError)
            else [ToUser(host, CallNotice(id, CallRejected)), ToUser(host, CallNotice(id, CallEnded))])
  }

  function OnJoin(db: Calls.Db, u: int, id: string, e: Reply): (Calls.Db, seq<Effect>) {
    var (db', r) := Calls.GetJoinInfo(db, id, u, e.now, e.f);
    (db', if r.Err? then Refusal(CallError) else [ToSelf(Credentials(id, r.value))])
  }

  ghost function OnLeave(db: Calls.Db, u: int, id: string, e: Reply): (Calls.Db, seq<Effect>) {
    var (db', r) := Calls.LeaveCall(db, id, u, e.now, e.f);
    (db', if r.Err? then Refusal(CallError) else [])
  }

  function OnEnd(db: Calls.Db, u: int, id: string, e: Reply): (Calls.Db, seq<Effect>) {
    if !e.read || id !in db.calls then (db, Refusal(CallNotFound))
    else
      var host := db.calls[id].initiator;
      var (db', r) := Calls.EndCall(db, id, u, e.now, e.f);
      (db', if r.Err? then Refusal(CallError)
            else if host == u then [] else [ToUser(host, CallNotice(id, CallEnded))])
  }

  /** The handler of a call command: the tables after it, and what it sends. */
  ghost function Respond(db: Calls.Db, who: Identity, req: CallRequest, e: Reply): (Calls.Db, seq<Effect>) {
    var u := who.userId;
    if !e.enabled then (db, Refusal(CallsDisabled))
    else if who.isGuest || u == 0 then (db, Refusal(Unauthorized))
    else match req
      case RingUser(to) => OnRingUser(db, u, to, e)
      case RingRoom(room) => OnRingRoom(db, u, room, e)
      case AcceptCall(id) => OnAccept(db, u, id, e)
      case RejectCall(id) => OnReject(db, u, id, e)
      case JoinCall(id) => OnJoin(db, u, id, e)
      case LeaveCall(id) => OnLeave(db, u, id, e)
      case EndCall(id) => OnEnd(db, u, id, e)
  }

  /** The replies that the stored tables allow. */
  ghost predicate Possible(db: Calls.Db, req: CallRequest, e: Reply) {
    req.RingRoom? ==>
      && Calls.ActiveAnswer(db, req.roomId, e.found)
      && (e.members.Some? ==> forall m :: m in e.members.value <==> (m, req.roomId) in db.world.tables.members)
  }

  // ---- What is sent ----

  /** Credentials in an event are those of a participant of that live call, for its own media room. */
  predicate Genuine(db: Calls.Db, e: Event) {
    e.JoinInfo? ==>
      && e.call in db.calls && Calls.Live(db.calls[e.call]) && db.calls[e.call].external == Some(e.media)
      && (e.call, e.holder) in db.parts
  }

  /** Credentials are sent to the very user they are for, and are genuine. */
  predicate Honest(db: Calls.Db, u: int, effect: Effect) {
    match effect
    case ToSelf(e) => Genuine(db, e) && (e.JoinInfo? ==> e.holder == u)
    case ToUser(v, e) => Genuine(db, e) && (e.JoinInfo? ==> e.holder == v)
    case Pause(_) => true
  }

  ghost predicate AllHonest(db: Calls.Db, u: int, script: seq<Effect>) {
    forall k :: 0 <= k < |script| ==> Honest(db, u, script[k])
  }

  lemma {:induction false} TellIsHonest(db: Calls.Db, u: int, users: seq<int>, e: Event)
    requires !e.JoinInfo?
    ensures AllHonest(db, u, Tell(users, u, e))
  {
    if users != [] {
      TellIsHonest(db, u, users[1..], e);
    }
  }

  lemma JoinIsGenuine(db: Calls.Db, id: string, u: int, now: int, f: Calls.Faults)
    ensures var (db', r) := Calls.GetJoinInfo(db, id, u, now, f);
            r.Ok? ==> Genuine(db', Credentials(id, r.value)) && r.value.user == u
  {}

  lemma GenuineStays(db: Calls.Db, id: string, u: int, now: int, f: Calls.Faults, e: Event)
    requires Genuine(db, e)
    ensures Genuine(Calls.GetJoinInfo(db, id, u, now, f).0, e)
  {}

  lemma AcceptIsHonest(db: Calls.Db, u: int, id: string, e: Reply)
    ensures var (db', script) := OnAccept(db, u, id, e); AllHonest(db', u, script)
  {
    var (db1, first) := Calls.GetJoinInfo(db, id, u, e.now, e.f);
    JoinIsGenuine(db, id, u, e.now, e.f);
    if first.Ok? && e.read && id in db1.calls {
      var host := db1.calls[id].initiator;
      JoinIsGenuine(db1, id, host, e.now, e.g);
      GenuineStays(db1, id, host, e.now, e.g, Credentials(id, first.value));
    }
  }

  /** Whatever a call handler sends, credentials go to the user they are for, who is a participant of
      the live call they are for. */
  lemma RespondIsHonest(db: Calls.Db, who: Identity, req: CallRequest, e: Reply)
    ensures var (db', script) := Respond(db, who, req, e); AllHonest(db', who.userId, script)
  {
    if e.enabled && !who.isGuest && who.userId != 0 {
      match req
      case RingRoom(room) =>
        var (db', r) := Calls.CreateRoomCall(db, who.userId, room, e.found, e.newId, e.media, e.f);
        if r.Ok? && e.members.Some? {
          TellIsHonest(db', who.userId, e.members.value, CallNotice(r.value, CallIncoming));
        }
      case AcceptCall(id) => AcceptIsHonest(db, who.userId, id, e);
      case JoinCall(id) => JoinIsGenuine(db, id, who.userId, e.now, e.f);
      case RingUser(_) =>
      case RejectCall(_) =>
      case LeaveCall(_) =>
      case EndCall(_) =>
    }
  }

  /** Without a user id there are no credentials. */
  lemma NoCredentialsForNobody(db: Calls.Db, who: Identity, req: CallRequest, e: Reply)
    ensures who.userId == 0 ==> forall k :: 0 <= k < |Respond(db, who, req, e).1| ==>
              !Respond(db, who, req, e).1[k].Pause? && !Respond(db, who, req, e).1[k].event.JoinInfo?
  {}

  lemma {:induction false} TellIsPlain(users: seq<int>, caller: int, e: Event)
    requires !e.History?
    ensures forall k :: 0 <= k < |Tell(users, caller, e)| ==> HubInvariants.Plain(Tell(users, caller, e)[k])
  {
    if users != [] {
      TellIsPlain(users[1..], caller, e);
    }
  }

  /** Call handlers never send a history. */
  lemma RespondIsPlain(db: Calls.Db, who: Identity, req: CallRequest, e: Reply)
    ensures HubInvariants.PlainScript(Respond(db, who, req, e).1)
  {
    if e.enabled && !who.isGuest && who.userId != 0 && req.RingRoom? && e.members.Some? {
      var r := Calls.CreateRoomCall(db, who.userId, req.roomId, e.found, e.newId, e.media, e.f).1;
      if r.Ok? {
        TellIsPlain(e.members.value, who.userId, CallNotice(r.value, CallIncoming));
      }
    }
  }

  lemma {:induction false} TellTellsAll(users: seq<int>, caller: int, e: Event, v: int)
    ensures ToUser(v, e) in Tell(users, caller, e) <==> v in users && v != caller
  {
    if users != [] {
      TellTellsAll(users[1..], caller, e, v);
      assert users == [users[0]] + users[1..];
    }
  }

  lemma {:induction false} TellOnly(users: seq<int>, caller: int, e: Event)
    ensures forall x :: x in Tell(users, caller, e) ==> x.ToUser? && x.event == e
  {
    if users != [] {
      TellOnly(users[1..], caller, e);
    }
  }

  /** Ringing a room notifies exactly its members but the caller, and sends nothing else. */
  lemma RoomIsRung(db: Calls.Db, who: Identity, room: int, e: Reply, v: int)
    requires e.enabled && !who.isGuest && who.userId != 0 && Possible(db, RingRoom(room), e)
    ensures var (db', script) := Respond(db, who, RingRoom(room), e);
            var (db1, r) := Calls.CreateRoomCall(db, who.userId, room, e.found, e.newId, e.media, e.f);
            && db' == db1
            && (r.Err? || e.members.None? ==> RefusedWith(script, CallError))
            && (r.Ok? && e.members.Some? ==>
                  && (ToUser(v, CallNotice(r.value, CallIncoming)) in script
                      <==> (v, room) in db.world.tables.members && v != who.userId)
                  && forall x :: x in script ==> x.ToUser? && x.event == CallNotice(r.value, CallIncoming))
  {
    var r := Calls.CreateRoomCall(db, who.userId, room, e.found, e.newId, e.media, e.f).1;
    if r.Ok? && e.members.Some? {
      TellTellsAll(e.members.value, who.userId, CallNotice(r.value, CallIncoming), v);
      TellOnly(e.members.value, who.userId, CallNotice(r.value, CallIncoming));
    }
  }

  /** The one answer of a refused command. */
  predicate RefusedWith(script: seq<Effect>, code: ErrorCode) {
    script == [ToSelf(Failure("", code))]
  }

  /** Who is told what: exactly these events to the caller's own client, and these to these users. */
  ghost predicate Tells(script: seq<Effect>, own: set<Event>, others: set<(int, Event)>) {
    && (forall e :: ToSelf(e) in script <==> e in own)
    && (forall v, e :: ToUser(v, e) in script <==> (v, e) in others)
  }

  /** Without a service, or for a guest, a call command is refused and nothing is done. */
  lemma CallsNeedAUser(db: Calls.Db, who: Identity, req: CallRequest, e: Reply)
    ensures var (db', script) := Respond(db, who, req, e);
            && (!e.enabled ==> db' == db && RefusedWith(script, CallsDisabled))
            && (e.enabled && (who.isGuest || who.userId == 0) ==> db' == db && RefusedWith(script, Unauthorized))
  {}

  /** Inviting a user: the caller hears that it rings, the callee that a call is coming in. */
  lemma InviteTells(db: Calls.Db, who: Identity, to: int, e: Reply)
    requires e.enabled && !who.isGuest && who.userId != 0
    ensures var (db', script) := Respond(db, who, RingUser(to), e);
            var (db1, r) := Calls.CreateDirectCall(db, who.userId, to, e.newId, e.media, e.f);
            && db' == db1
            && (r.Err? ==> RefusedWith(script, CallError))
            && (r.Ok? ==> Tells(script, {CallNotice(r.value, CallRinging)}, {(to, CallNotice(r.value, CallIncoming))}))
  {}

  /** Accepting: the acceptor gets its credentials; the initiator hears of the acceptance and then gets
      its own credentials, if they can be issued. */
  lemma AcceptTells(db: Calls.Db, who: Identity, id: string, e: Reply)
    requires e.enabled && !who.isGuest && who.userId != 0
    ensures var (db', script) := Respond(db, who, AcceptCall(id), e);
            var (db1, first) := Calls.GetJoinInfo(db, id, who.userId, e.now, e.f);
            && (first.Err? ==> db' == db1 && RefusedWith(script, CallError))
            && (first.Ok? && (!e.read || id !in db1.calls) ==> db' == db1 && RefusedWith(script, CallNotFound))
            && (first.Ok? && e.read && id in db1.calls ==>
                  var host := db1.calls[id].initiator;
                  var (db2, second) := Calls.GetJoinInfo(db1, id, host, e.now, e.g);
                  && db' == db2
                  && Tells(script, {JoinInfo(id, first.value.room, who.userId)},
                           {(host, CallNotice(id, CallAccepted))}
                           + (if second.Ok? then {(host, JoinInfo(id, second.value.room, host))} else {}))
                  && (second.Ok? ==> |script| == 3 && script[2] == ToUser(host, JoinInfo(id, second.value.room, host))))
  {
    JoinIsGenuine(db, id, who.userId, e.now, e.f);
    var (db1, first) := Calls.GetJoinInfo(db, id, who.userId, e.now, e.f);
    if first.Ok? && id in db1.calls {
      JoinIsGenuine(db1, id, db1.calls[id].initiator, e.now, e.g);
    }
  }

  /** Rejecting and ending: the initiator hears of it, of an end only if somebody else ended it. */
  lemma RejectAndEndTell(db: Calls.Db, who: Identity, id: string, e: Reply)
    requires e.enabled && !who.isGuest && who.userId != 0
    ensures var (db', script) := Respond(db, who, RejectCall(id), e);
            && (!e.read || id !in db.calls ==> db' == db && RefusedWith(script, CallNotFound))
            && (e.read && id in db.calls ==>
                  var host := db.calls[id].initiator;
                  var (db1, r) := Calls.RejectCall(db, id, who.userId, e.now, e.f);
                  && db' == db1
                  && (r.Err? ==> RefusedWith(script, CallError))
                  && (r.Ok? ==>
                        Tells(script, {}, {(host, CallNotice(id, CallRejected)), (host, CallNotice(id, CallEnded))})))
    ensures var (db', script) := Respond(db, who, EndCall(id), e);
            && (!e.read || id !in db.calls ==> db' == db && RefusedWith(script, CallNotFound))
            && (e.read && id in db.calls ==>
                  var host := db.calls[id].initiator;
                  var (db1, r) := Calls.EndCall(db, id, who.userId, e.now, e.f);
                  && db' == db1
                  && (r.Err? ==> RefusedWith(script, CallError))
                  && (r.Ok? ==>
                        Tells(script, {}, if host == who.userId then {} else {(host, CallNotice(id, CallEnded))})))
  {}

  /** Joining: the joiner gets its credentials. Leaving: nobody is told. */
  lemma JoinAndLeaveTell(db: Calls.Db, who: Identity, id: string, e: Reply)
    requires e.enabled && !who.isGuest && who.userId != 0
    ensures var (db', script) := Respond(db, who, JoinCall(id), e);
            var (db1, r) := Calls.GetJoinInfo(db, id, who.userId, e.now, e.f);
            && db' == db1
            && (r.Err? ==> RefusedWith(script, CallError))
            && (r.Ok? ==> Tells(script, {JoinInfo(id, r.value.room, who.userId)}, {}))
    ensures var (db', script) := Respond(db, who, LeaveCall(id), e);
            var (db1, r) := Calls.LeaveCall(db, id, who.userId, e.now, e.f);
            && db' == db1
            && (r.Err? ==> RefusedWith(script, CallError))
            && (r.Ok? ==> Tells(script, {}, {}))
  {
    JoinIsGenuine(db, id, who.userId, e.now, e.f);
  }

  // ---- What is done ----

  /** The service operations that a handler makes, in order. */
  ghost function OpsOf(db: Calls.Db, who: Identity, req: CallRequest, e: Reply): seq<Calls.Op> {
    var u := who.userId;
    if !e.enabled || who.isGuest || u == 0 then []
    else match req
      case RingUser(to) => [Calls.CreateDirect(u, to, e.newId, e.media, e.f)]
      case RingRoom(room) => [Calls.CreateInRoom(u, room, e.found, e.newId, e.media, e.f)]
      case AcceptCall(id) =>
        var (db1, first) := Calls.GetJoinInfo(db, id, u, e.now, e.f);
        [Calls.Join(id, u, e.now, e.f)]
        + if first.Ok? && e.read && id in db1.calls then [Calls.Join(id, db1.calls[id].initiator, e.now, e.g)] else []
      case RejectCall(id) => if e.read && id in db.calls then [Calls.Reject(id, u, e.now, e.f)] else []
      case JoinCall(id) => [Calls.Join(id, u, e.now, e.f)]
      case LeaveCall(id) => [Calls.Leave(id, u, e.now, e.f)]
      case EndCall(id) => if e.read && id in db.calls then [Calls.End(id, u, e.now, e.f)] else []
  }

  lemma OpsChangeNothingElse(db: Calls.Db, who: Identity, req: CallRequest, e: Reply)
    ensures forall k :: 0 <= k < |OpsOf(db, who, req, e)| ==> !OpsOf(db, who, req, e)[k].Change?
  {}

  lemma OneOp(db: Calls.Db, op: Calls.Op)
    ensures Calls.Exec(db, [op]) == Calls.Step(db, op)
    ensures Calls.LegalRun(db, [op]) <==> Calls.Legal(db, op)
  {
    assert [] + [op] == [op];
    Calls.RunAppend(db, [], op);
  }

  /** A handler changes the tables by service operations alone, so all that holds of their runs holds
      of what the hub does. */
  lemma RespondIsRun(db: Calls.Db, who: Identity, req: CallRequest, e: Reply)
    requires Possible(db, req, e)
    ensures var ops := OpsOf(db, who, req, e);
            Calls.LegalRun(db, ops) && Calls.Exec(db, ops) == Respond(db, who, req, e).0
  {
    var u := who.userId;
    if e.enabled && !who.isGuest && u != 0 {
      match req
      case RingUser(to) => OneOp(db, Calls.CreateDirect(u, to, e.newId, e.media, e.f));
      case RingRoom(room) => OneOp(db, Calls.CreateInRoom(u, room, e.found, e.newId, e.media, e.f));
      case AcceptCall(id) =>
        var (db1, first) := Calls.GetJoinInfo(db, id, u, e.now, e.f);
        OneOp(db, Calls.Join(id, u, e.now, e.f));
        if first.Ok? && e.read && id in db1.calls {
          Calls.RunAppend(db, [Calls.Join(id, u, e.now, e.f)], Calls.Join(id, db1.calls[id].initiator, e.now, e.g));
        }
      case RejectCall(id) => OneOp(db, Calls.Reject(id, u, e.now, e.f));
      case JoinCall(id) => OneOp(db, Calls.Join(id, u, e.now, e.f));
      case LeaveCall(id) => OneOp(db, Calls.Leave(id, u, e.now, e.f));
      case EndCall(id) => OneOp(db, Calls.End(id, u, e.now, e.f));
    }
  }
}
