/** The call service as the source writes it: read a row, change its fields, write it back. */
module CallsImpl {
  import opened Common
  import Friends
  import opened Calls
  import CallTheorems

  class CallService {
    var calls: map<CallId, Call>
    var parts: map<(CallId, int), Part>
    var world: World
    ghost const start: World   // the other tables when the service began
    ghost var ops: seq<Op>     // all operations so far

    /** The tables are what the operations so far have made of empty ones, so that whatever holds of
        every run holds of this object. */
    ghost predicate Valid()
      reads this
    {
      LegalRun(CallTheorems.Fresh(start), ops) && State() == Exec(CallTheorems.Fresh(start), ops)
    }

    constructor (world: World)
      ensures Valid() && start == world && ops == []
    {
      calls, parts := map[], map[];
      this.world, start, ops := world, world, [];
    }

    ghost method Record(op: Op)
      requires LegalRun(CallTheorems.Fresh(start), ops) && Legal(Exec(CallTheorems.Fresh(start), ops), op)
      requires State() == Step(Exec(CallTheorems.Fresh(start), ops), op)
      modifies this`ops
      ensures Valid() && ops == old(ops) + [op]
    {
      RunAppend(CallTheorems.Fresh(start), ops, op);
      ops := ops + [op];
    }

    /** Whatever else happens to users, rooms, members and friendships. */
    method SetWorld(w: World)
      requires Valid()
      modifies this`world, this`ops
      ensures Valid() && world == w && ops == old(ops) + [Change(w)]
    {
      world := w;
      Record(Change(w));
    }

    function State(): Db
      reads this
    {
      Db(calls, parts, world)
    }

    method AddParticipant(id: CallId, u: int, w: Write) returns (ok: bool)
      modifies this`parts
      ensures (State(), ok) == AddPart(old(State()), id, u, w)
    {
      ok := false;
      if !w.Fails? && (id, u) !in parts {
        parts := parts[(id, u) := Part(None, None)];
        ok := w.Works?;
      }
    }

    method UpdateParticipant(id: CallId, u: int, p: Part, fails: bool)
      modifies this`parts
      ensures State() == SetPart(old(State()), id, u, p, fails)
    {
      if !fails && (id, u) in parts {
        parts := parts[(id, u) := p];
      }
    }

    method UpdateCall(id: CallId, c: Call, fails: bool)
      modifies this`calls
      ensures State() == SetCall(old(State()), id, c, fails)
    {
      if !fails && id in calls {
        calls := calls[id := c];
      }
    }

    method StoreCall(id: CallId, kind: Kind, initiator: int, external: string, f: Faults) returns (ok: bool)
      modifies this`calls
      ensures (State(), ok) == NewCall(old(State()), id, kind, initiator, external, f)
    {
      ok := !f.engine && !f.insert && id !in calls;
      if ok {
        calls := calls[id := Call(kind, initiator, Ringing, Some(external), None)];
      }
    }

    method CreateDirectCall(from: int, to: int, id: CallId, external: string, f: Faults)
      returns (r: Result<CallId, Error>)
      requires Valid()
      modifies this`calls, this`parts, this`ops
      ensures Valid() && ops == old(ops) + [CreateDirect(from, to, id, external, f)]
      ensures (State(), r) == Calls.CreateDirectCall(old(State()), from, to, id, external, f)
    {
      if f.noEngine {
        r := Err(NotEnabled);
      } else if from == to {
        r := Err(CannotCallSelf);
      } else if f.user || to !in world.users {
        r := Err(UserNotFound);
      } else if f.settings || (to in world.friendsOnly && f.friend) {
        r := Err(StoreError);
      } else if to in world.friendsOnly && !Friends.IsFriend(world.friends, from, to) {
        r := Err(NotAllowed);
      } else {
        r := Err(StoreError);
        var stored := StoreCall(id, Direct, from, external, f);
        if stored {
          var first := AddParticipant(id, from, f.add);
          if first {
            var second := AddParticipant(id, to, f.addSecond);
            r := if second then Ok(id) else Err(StoreError);
          }
        }
      }
      Record(CreateDirect(from, to, id, external, f));
    }

    /** Scans the calls for a live one of the room. */
    method FindActive(room: int) returns (found: Option<CallId>)
      ensures ActiveAnswer(State(), room, found)
    {
      var todo := calls.Keys;
      while todo != {}
        invariant todo <= calls.Keys
        invariant forall id :: id in calls && id !in todo && calls[id].kind == InRoom(room) ==> !Live(calls[id])
        decreases todo
      {
        var id :| id in todo;
        if calls[id].kind == InRoom(room) && Live(calls[id]) {
          return Some(id);
        }
        todo := todo - {id};
      }
      return None;
    }

    method CreateRoomCall(u: int, room: int, id: CallId, external: string, f: Faults)
      returns (r: Result<CallId, Error>, found: Option<CallId>)
      requires Valid()
      modifies this`calls, this`parts, this`ops
      ensures Valid() && ops == old(ops) + [CreateInRoom(u, room, found, id, external, f)]
      ensures ActiveAnswer(old(State()), room, found)
      ensures (State(), r) == Calls.CreateRoomCall(old(State()), u, room, found, id, external, f)
    {
      found := FindActive(room);
      if f.noEngine {
        r := Err(NotEnabled);
      } else if f.room || room !in world.tables.rooms {
        r := Err(RoomNotFound);
      } else if f.member {
        r := Err(StoreError);
      } else if (u, room) !in world.tables.members {
        r := Err(NotRoomMember);
      } else if f.active {
        r := Err(StoreError);
      } else if found.Some? {
        r := Ok(found.value);
        if f.part || (found.value, u) !in parts {
          var added := AddParticipant(found.value, u, f.add);
          if !added {
            r := Err(StoreError);
          }
        }
      } else {
        r := Err(StoreError);
        var stored := StoreCall(id, InRoom(room), u, external, f);
        if stored {
          var added := AddParticipant(id, u, f.add);
          r := if added then Ok(id) else Err(StoreError);
        }
      }
      Record(CreateInRoom(u, room, found, id, external, f));
    }

    method GetJoinInfo(id: CallId, u: int, now: int, f: Faults) returns (r: Result<Creds, Error>)
      requires Valid()
      modifies this`calls, this`parts, this`ops
      ensures Valid() && ops == old(ops) + [Op.Join(id, u, now, f)]
      ensures (State(), r) == Calls.GetJoinInfo(old(State()), id, u, now, f)
    {
      if f.noEngine {
        r := Err(NotEnabled);
      } else if f.getCall || id !in calls {
        r := Err(CallNotFound);
      } else if !Live(calls[id]) {
        r := Err(CallOver);
      } else if !f.part && (id, u) in parts {
        r := Join(id, u, now, f);
      } else if calls[id].kind.Direct? || f.member || (u, calls[id].kind.room) !in world.tables.members {
        r := Err(NotParticipant);
      } else {
        var added := AddParticipant(id, u, f.add);
        if added {
          r := Join(id, u, now, f);
        } else {
          r := Err(StoreError);
        }
      }
      Record(Op.Join(id, u, now, f));
    }

    /** The end of GetJoinInfo; both writes are best effort. */
    method Join(id: CallId, u: int, now: int, f: Faults) returns (r: Result<Creds, Error>)
      requires id in calls && (id, u) in parts
      modifies this`calls, this`parts
      ensures (State(), r) == Admit(old(State()), id, u, now, f)
    {
      var participant, call := parts[(id, u)], calls[id];
      if participant.joinedAt.None? {
        UpdateParticipant(id, u, participant.(joinedAt := Some(now)), f.updatePart);
      }
      if call.status == Ringing {
        UpdateCall(id, call.(status := Active), f.updateCall);
      }
      if f.user || u !in world.users {
        r := Err(UserNotFound);
      } else if f.engine || call.external.None? {
        r := Err(StoreError);
      } else {
        r := Ok(Creds(call.external.value, u));
      }
    }

    method EndCall(id: CallId, u: int, now: int, f: Faults) returns (r: Result<(), Error>)
      requires Valid()
      modifies this`calls, this`ops
      ensures Valid() && ops == old(ops) + [End(id, u, now, f)]
      ensures (State(), r) == Calls.EndCall(old(State()), id, u, now, f)
    {
      if f.getCall || id !in calls {
        r := Err(CallNotFound);
      } else if !Live(calls[id]) {
        r := Ok(());
      } else if (f.part || (id, u) !in parts) && calls[id].initiator != u {
        r := Err(NotParticipant);
      } else if f.updateCall {
        r := Err(StoreError);
      } else {
        UpdateCall(id, calls[id].(status := Ended, endedAt := Some(now)), false);
        r := Ok(());
      }
      Record(End(id, u, now, f));
    }

    method RejectCall(id: CallId, u: int, now: int, f: Faults) returns (r: Result<(), Error>)
      requires Valid()
      modifies this`calls, this`parts, this`ops
      ensures Valid() && ops == old(ops) + [Reject(id, u, now, f)]
      ensures (State(), r) == Calls.RejectCall(old(State()), id, u, now, f)
    {
      if f.getCall || id !in calls {
        r := Err(CallNotFound);
      } else if calls[id].status != Ringing {
        r := Err(CallOver);
      } else if f.part || (id, u) !in parts {
        r := Err(NotParticipant);
      } else if f.updateCall {
        r := Err(StoreError);
      } else {
        UpdateCall(id, calls[id].(status := Ended, endedAt := Some(now)), false);
        if !f.rePart {
          UpdateParticipant(id, u, parts[(id, u)].(leftAt := Some(now)), f.updatePart);
        }
        r := Ok(());
      }
      Record(Reject(id, u, now, f));
    }

    /** Scans the listed participant rows until one has not left. */
    method ScanAllLeft(id: CallId, listed: Option<set<int>>) returns (allLeft: bool)
      ensures allLeft <==> AllLeft(State(), id, listed)
    {
      var todo := set k | k in parts && k.0 == id && (listed.None? || k.1 in listed.value);
      ghost var rows := todo;
      allLeft := true;
      while todo != {} && allLeft
        invariant todo <= rows
        invariant allLeft ==> forall k :: k in rows && k !in todo ==> parts[k].leftAt.Some?
        invariant !allLeft ==> exists k :: k in rows && parts[k].leftAt.None?
        decreases todo
      {
        var k :| k in todo;
        if parts[k].leftAt.None? {
          allLeft := false;
        }
        todo := todo - {k};
      }
      if allLeft {
        forall v | (id, v) in State().parts && (listed.None? || v in listed.value)
          ensures State().parts[(id, v)].leftAt.Some?
        {
          assert (id, v) in rows && (id, v) !in todo;
        }
        assert AllLeft(State(), id, listed);
      } else {
        ghost var k :| k in rows && parts[k].leftAt.None?;
        ghost var v := k.1;
        assert (id, v) == k && (listed.None? || v in listed.value);
        assert (id, v) in State().parts && State().parts[(id, v)].leftAt.None?;
        assert !AllLeft(State(), id, listed);
      }
    }

    method LeaveCall(id: CallId, u: int, now: int, f: Faults) returns (r: Result<(), Error>)
      requires Valid()
      modifies this`calls, this`parts, this`ops
      ensures Valid() && ops == old(ops) + [Leave(id, u, now, f)]
      ensures (State(), r) == Calls.LeaveCall(old(State()), id, u, now, f)
    {
      if f.part || (id, u) !in parts {
        r := Err(NotParticipant);
      } else if f.updatePart {
        r := Err(StoreError);
      } else {
        UpdateParticipant(id, u, parts[(id, u)].(leftAt := Some(now)), false);
        var allLeft := ScanAllLeft(id, f.listed);
        if allLeft && !f.getCall && id in calls && calls[id].status != Ended {
          UpdateCall(id, calls[id].(status := Ended, endedAt := Some(now)), f.updateCall);
        }
        r := Ok(());
      }
      Record(Leave(id, u, now, f));
    }
  }
}
