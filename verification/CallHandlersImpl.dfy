/** The hub's call handlers as the source writes them: service calls, then what to send. */
module CallHandlersImpl {
  import opened Common
  import opened HubSpec
  import Calls
  import opened CallsImpl
  import opened CallHandlers

  /** The users to notify of a room call: all members but the caller, in the order of the listing. */
  method TellMembers(members: seq<int>, caller: int, e: Event) returns (script: seq<Effect>)
    ensures script == Tell(members, caller, e)
  {
    script := [];
    var k := |members|;
    assert members[k..] == [];
    while k > 0
      invariant 0 <= k <= |members|
      invariant script == Tell(members[k..], caller, e)
    {
      k := k - 1;
      assert members[k..][1..] == members[k + 1..];
      if members[k] != caller {
        script := [ToUser(members[k], e)] + script;
      }
    }
    assert members[0..] == members;
  }

  /** handleCallAccept after its checks: credentials for the acceptor, then for the initiator. */
  method ServeAccept(svc: CallService, u: int, id: string, e: Reply) returns (script: seq<Effect>)
    requires svc.Valid()
    modifies svc
    ensures svc.Valid() && (svc.State(), script) == OnAccept(old(svc.State()), u, id, e)
  {
    var first := svc.GetJoinInfo(id, u, e.now, e.f);
    if first.Err? {
      script := Refusal(CallError);
    } else if !e.read || id !in svc.calls {
      script := Refusal(CallNotFound);
    } else {
      var host := svc.calls[id].initiator;
      script := [ToSelf(Credentials(id, first.value)), ToUser(host, CallNotice(id, CallAccepted))];
      var second := svc.GetJoinInfo(id, host, e.now, e.g);
      if second.Ok? {
        script := script + [ToUser(host, Credentials(id, second.value))];
      } else {
        assert script + [] == script;
      }
    }
  }

  method ServeReject(svc: CallService, u: int, id: string, e: Reply) returns (script: seq<Effect>)
    requires svc.Valid()
    modifies svc
    ensures svc.Valid() && (svc.State(), script) == OnReject(old(svc.State()), u, id, e)
  {
    if !e.read || id !in svc.calls {
      script := Refusal(CallNotFound);
    } else {
      var host := svc.calls[id].initiator;
      var r := svc.RejectCall(id, u, e.now, e.f);
      if r.Err? {
        script := Refusal(CallError);
      } else {
        script := [ToUser(host, CallNotice(id, CallRejected)), ToUser(host, CallNotice(id, CallEnded))];
      }
    }
  }

  method ServeEnd(svc: CallService, u: int, id: string, e: Reply) returns (script: seq<Effect>)
    requires svc.Valid()
    modifies svc
    ensures svc.Valid() && (svc.State(), script) == OnEnd(old(svc.State()), u, id, e)
  {
    if !e.read || id !in svc.calls {
      script := Refusal(CallNotFound);
    } else {
      var host := svc.calls[id].initiator;
      var r := svc.EndCall(id, u, e.now, e.f);
      script := if r.Err? then Refusal(CallError)
                else if host == u then [] else [ToUser(host, CallNotice(id, CallEnded))];
    }
  }

  method ServeRing(svc: CallService, u: int, req: CallRequest, e: Reply) returns (script: seq<Effect>, used: Reply)
    requires svc.Valid() && (req.RingUser? || req.RingRoom?)
    modifies svc
    ensures svc.Valid() && used == e.(found := used.found)
    ensures req.RingUser? ==> (svc.State(), script) == OnRingUser(old(svc.State()), u, req.to, used)
    ensures req.RingRoom? ==> (svc.State(), script) == OnRingRoom(old(svc.State()), u, req.roomId, used)
    ensures req.RingRoom? ==> Calls.ActiveAnswer(old(svc.State()), req.roomId, used.found)
  {
    used := e;
    match req {
      case RingUser(to) =>
        var r := svc.CreateDirectCall(u, to, e.newId, e.media, e.f);
        if r.Err? {
          script := Refusal(CallError);
        } else {
          script := [ToSelf(CallNotice(r.value, CallRinging)), ToUser(to, CallNotice(r.value, CallIncoming))];
        }
      case RingRoom(room) =>
        var r, found := svc.CreateRoomCall(u, room, e.newId, e.media, e.f);
        used := e.(found := found);
        if r.Err? || e.members.None? {
          script := Refusal(CallError);
        } else {
          script := TellMembers(e.members.value, u, CallNotice(r.value, CallIncoming));
        }
    }
  }

  /** The dispatch of a call command. `used` is the reply with the live call that the room's query found. */
  method ServeCall(svc: CallService, who: Identity, req: CallRequest, e: Reply)
    returns (script: seq<Effect>, used: Reply)
    requires svc.Valid()
    modifies svc
    ensures svc.Valid() && used == e.(found := used.found)
    ensures (svc.State(), script) == Respond(old(svc.State()), who, req, used)
  {
    used := e;
    var u := who.userId;
    if !e.enabled {
      script := Refusal(CallsDisabled);
    } else if who.isGuest || u == 0 {
      script := Refusal(Unauthorized);
    } else {
      match req {
        case RingUser(_) => script, used := ServeRing(svc, u, req, e);
        case RingRoom(_) => script, used := ServeRing(svc, u, req, e);
        case AcceptCall(id) => script := ServeAccept(svc, u, id, e);
        case RejectCall(id) => script := ServeReject(svc, u, id, e);
        case EndCall(id) => script := ServeEnd(svc, u, id, e);
        case JoinCall(id) =>
          var r := svc.GetJoinInfo(id, u, e.now, e.f);
          script := if r.Err? then Refusal(CallError) else [ToSelf(Credentials(id, r.value))];
        case LeaveCall(id) =>
          var r := svc.LeaveCall(id, u, e.now, e.f);
          script := if r.Err? then Refusal(CallError) else [];
      }
    }
  }
}
