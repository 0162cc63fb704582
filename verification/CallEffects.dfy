/** What each call operation answers and does, for every combination of failures. */
module CallEffects {
  import opened Common
  import Friends
  import opened Calls
  import opened CallTheorems

  // ---- Creating ----

  /** The callee takes the call: from anybody, or from friends only and the caller is one. */
  predicate Accepts(db: Db, from: int, to: int, f: Faults) {
    to in db.world.friendsOnly ==> !f.friend && Friends.IsFriend(db.world.friends, from, to)
  }

  /** A direct call is created exactly if calls are enabled, the two differ, the callee exists and takes
      the call, and the engine and the writes work. It is then ringing, with both as participants who
      have neither joined nor left. */
  lemma CreateDirectDoes(db: Db, from: int, to: int, id: CallId, ext: string, f: Faults)
    ensures var (db', r) := CreateDirectCall(db, from, to, id, ext, f);
            var allowed := && !f.noEngine && from != to && !f.user && to in db.world.users && !f.settings
                           && Accepts(db, from, to, f);
            var newId := id !in db.calls && (id, from) !in db.parts && (id, to) !in db.parts;
            && (r.Ok? <==> allowed && newId && !f.engine && !f.insert && f.add.Works? && f.addSecond.Works?)
            && (r.Ok? ==>
                  && r.value == id
                  && db'.calls == db.calls[id := Call(Direct, from, Ringing, Some(ext), None)]
                  && db'.parts == db.parts[(id, from) := Part(None, None)][(id, to) := Part(None, None)]
                  && db'.world == db.world)
            && (!allowed ==> db' == db)
            && (f.noEngine ==> r == Err(NotEnabled))
            && (!f.noEngine && from == to ==> r == Err(CannotCallSelf))
            && (!f.noEngine && from != to && (f.user || to !in db.world.users) ==> r == Err(UserNotFound))
            && ((&& !f.noEngine && from != to && !f.user && to in db.world.users && !f.settings && !f.friend
                 && to in db.world.friendsOnly && !Friends.IsFriend(db.world.friends, from, to)) ==>
                  r == Err(NotAllowed))
  {}

  /** A room call is answered exactly if calls are enabled, the room exists, the caller is a member, and
      the store and engine work: with the room's live call, the caller being or becoming a participant,
      or with a new ringing call. */
  lemma CreateInRoomDoes(db: Db, u: int, room: int, found: Option<CallId>, id: CallId, ext: string, f: Faults)
    requires Inv(db) && ActiveAnswer(db, room, found)
    ensures var (db', r) := CreateRoomCall(db, u, room, found, id, ext, f);
            var allowed := && !f.noEngine && !f.room && room in db.world.tables.rooms
                           && !f.member && (u, room) in db.world.tables.members && !f.active;
            && (found.Some? ==>
                  && (r.Ok? <==> allowed && (if (found.value, u) in db.parts then !f.part else f.add.Works?))
                  && (r.Ok? ==> r.value == found.value && (found.value, u) in db'.parts && db'.calls == db.calls))
            && (found.None? ==>
                  && (r.Ok? <==> allowed && id !in db.calls && !f.engine && !f.insert && f.add.Works?)
                  && (r.Ok? ==>
                        && r.value == id
                        && db'.calls == db.calls[id := Call(InRoom(room), u, Ringing, Some(ext), None)]
                        && db'.parts == db.parts[(id, u) := Part(None, None)]))
            && (!allowed ==> db' == db)
            && (!f.noEngine && (f.room || room !in db.world.tables.rooms) ==> r == Err(RoomNotFound))
            && ((&& !f.noEngine && !f.room && room in db.world.tables.rooms && !f.member
                 && (u, room) !in db.world.tables.members) ==>
                  r == Err(NotRoomMember))
  {
    assert (id, u) in db.parts ==> id in db.calls;
  }

  // ---- Joining ----

  /** The call is there and not over. */
  predicate Reachable(db: Db, id: CallId, f: Faults) {
    !f.noEngine && !f.getCall && id in db.calls && Live(db.calls[id])
  }

  /** u is seen to be a participant, or is a member of the call's room who can be added. */
  predicate Entitled(db: Db, id: CallId, u: int, f: Faults)
    requires id in db.calls
  {
    || (!f.part && (id, u) in db.parts)
    || (&& (id, u) !in db.parts && db.calls[id].kind.InRoom? && !f.member
        && (u, db.calls[id].kind.room) in db.world.tables.members && f.add.Works?)
  }

  /** Credentials are issued exactly to those entitled, if the user and engine can be reached: for the
      call's own media room. The participant is then marked as joined, once and at its first join, and a
      ringing call becomes active, as far as those two writes work; nothing else changes. */
  lemma JoinDoes(db: Db, id: CallId, u: int, now: int, f: Faults)
    ensures var (db', r) := GetJoinInfo(db, id, u, now, f);
            && (r.Ok? <==> && Reachable(db, id, f) && Entitled(db, id, u, f)
                           && !f.user && u in db.world.users && !f.engine && db.calls[id].external.Some?)
            && (r.Ok? ==> Some(r.value.room) == db.calls[id].external && r.value.user == u)
            && (f.noEngine ==> r == Err(NotEnabled))
            && (!f.noEngine && (f.getCall || id !in db.calls) ==> r == Err(CallNotFound))
            && (!f.noEngine && !f.getCall && id in db.calls && !Live(db.calls[id]) ==> r == Err(CallOver))
            && (Reachable(db, id, f) && db.calls[id].kind.Direct? && (f.part || (id, u) !in db.parts) ==>
                  r == Err(NotParticipant))
    ensures Reachable(db, id, f) && Entitled(db, id, u, f) ==>
              Joined(db, GetJoinInfo(db, id, u, now, f).0, id, u, now, f)
    ensures !Reachable(db, id, f) ==> GetJoinInfo(db, id, u, now, f).0 == db
  {}

  /** What joining does to the tables. */
  ghost predicate Joined(db: Db, db': Db, id: CallId, u: int, now: int, f: Faults)
    requires id in db.calls
  {
    var was := if (id, u) in db.parts then db.parts[(id, u)] else Part(None, None);
    && db'.world == db.world
    && db'.calls == db.calls[id := if db.calls[id].status == Ringing && !f.updateCall
                                   then db.calls[id].(status := Active) else db.calls[id]]
    && db'.parts == db.parts[(id, u) := if was.joinedAt.None? && !f.updatePart
                                        then Part(Some(now), was.leftAt) else was]
  }

  // ---- Ending ----

  /** u is seen to be a participant, or is the initiator. */
  predicate MayEnd(db: Db, id: CallId, u: int, f: Faults)
    requires id in db.calls
  {
    (!f.part && (id, u) in db.parts) || db.calls[id].initiator == u
  }

  /** A live call is ended by End exactly if it can be read and written and the user is a participant or
      the initiator; anybody else is refused. Ending a call that is over is a success that does nothing. */
  lemma EndDoes(db: Db, id: CallId, u: int, now: int, f: Faults)
    ensures var (db', r) := EndCall(db, id, u, now, f);
            && (f.getCall || id !in db.calls <==> r == Err(CallNotFound))
            && (!f.getCall && id in db.calls && !Live(db.calls[id]) ==> r == Ok(()) && db' == db)
            && (!f.getCall && id in db.calls && Live(db.calls[id]) ==>
                  && (!MayEnd(db, id, u, f) <==> r == Err(NotParticipant))
                  && (MayEnd(db, id, u, f) && f.updateCall <==> r == Err(StoreError))
                  && (MayEnd(db, id, u, f) && !f.updateCall <==> r == Ok(())))
            && (r.Err? ==> db' == db)
            && (r.Ok? && id in db.calls && Live(db.calls[id]) ==>
                  db' == db.(calls := db.calls[id := db.calls[id].(status := Ended, endedAt := Some(now))]))
    ensures id in db.calls && Live(db.calls[id]) ==>
              var db' := EndCall(db, id, u, now, f).0;
              id in db'.calls &&
              (db'.calls[id].status == Ended <==> !f.getCall && !f.updateCall && MayEnd(db, id, u, f))
  {}

  /** A call is rejected exactly if it is ringing, the user is seen to be a participant, and the call can
      be read and written. It is then over, and the user marked as gone as far as that write works. */
  lemma RejectDoes(db: Db, id: CallId, u: int, now: int, f: Faults)
    ensures var (db', r) := RejectCall(db, id, u, now, f);
            && (f.getCall || id !in db.calls <==> r == Err(CallNotFound))
            && (!f.getCall && id in db.calls ==>
                  && (db.calls[id].status != Ringing <==> r == Err(CallOver))
                  && (db.calls[id].status == Ringing ==>
                        && (f.part || (id, u) !in db.parts <==> r == Err(NotParticipant))
                        && (!f.part && (id, u) in db.parts && !f.updateCall <==> r == Ok(()))))
            && (r.Err? ==> db' == db)
            && (r.Ok? ==>
                  && db'.calls == db.calls[id := db.calls[id].(status := Ended, endedAt := Some(now))]
                  && db'.parts == (if f.rePart || f.updatePart then db.parts
                                   else db.parts[(id, u) := db.parts[(id, u)].(leftAt := Some(now))])
                  && db'.world == db.world)
  {}

  /** Leaving succeeds exactly for a participant whose row can be read and written; it marks that row.
      When it also ends the call is the matter of LeaveEndsIff. */
  lemma LeaveDoes(db: Db, id: CallId, u: int, now: int, f: Faults)
    ensures var (db', r) := LeaveCall(db, id, u, now, f);
            && (f.part || (id, u) !in db.parts <==> r == Err(NotParticipant))
            && (r.Ok? <==> !f.part && (id, u) in db.parts && !f.updatePart)
            && (r.Err? ==> db' == db)
            && (r.Ok? ==> db'.parts == db.parts[(id, u) := db.parts[(id, u)].(leftAt := Some(now))]
                          && db'.world == db.world && db'.calls.Keys == db.calls.Keys
                          && forall x :: x in db.calls && x != id ==> db'.calls[x] == db.calls[x])
  {}

  // ---- How calls end ----

  /** The operation is one that may end this call: by a participant or the initiator, by a participant's
      reject while it rings, or by the last of those listed who had not left. */
  ghost predicate EndsIt(db: Db, op: Op, id: CallId)
    requires id in db.calls
  {
    match op
    case End(x, u, _, f) => x == id && ((id, u) in db.parts || db.calls[id].initiator == u)
    case Reject(x, u, _, f) => x == id && db.calls[id].status == Ringing && (id, u) in db.parts
    case Leave(x, u, _, f) =>
      && x == id && (id, u) in db.parts
      && forall v :: v != u && (f.listed.None? || v in f.listed.value) ==> !IsPresent(db, id, v)
    case _ => false
  }

  lemma NewlyEnded(db: Db, op: Op, id: CallId)
    requires Inv(db) && Legal(db, op) && id in Step(db, op).calls && Step(db, op).calls[id].status == Ended
    requires id in db.calls ==> db.calls[id].status != Ended
    ensures id in db.calls && Live(db.calls[id]) && EndsIt(db, op, id)
  {
    if Touches(op, id) {
      assert id in db.calls ==> CallOk(db.calls[id]);
      match op
      case CreateDirect(_, _, _, _, _) =>
      case CreateInRoom(_, _, _, _, _, _) =>
      case Join(_, u, now, f) => JoinNeverEnds(db, id, u, now, f);
      case End(_, u, now, f) => EndDoes(db, id, u, now, f);
      case Reject(_, u, now, f) => RejectDoes(db, id, u, now, f);
      case Leave(_, u, now, f) => if id in db.calls { LeaveEndsIff(db, id, u, now, f); }
      case Change(_) =>
    } else {
      Elsewhere(db, op, id);
    }
  }

  lemma JoinNeverEnds(db: Db, id: CallId, u: int, now: int, f: Faults)
    ensures var db' := GetJoinInfo(db, id, u, now, f).0;
            && db'.calls.Keys == db.calls.Keys
            && (id in db.calls && db'.calls[id].status == Ended ==> db.calls[id].status == Ended)
  {}

  ghost predicate EndedAt(db: Db, ops: seq<Op>, k: nat, id: CallId) {
    && k < |ops| && id in Exec(db, ops[..k]).calls && Live(Exec(db, ops[..k]).calls[id])
    && id in Exec(db, ops[..k + 1]).calls && Exec(db, ops[..k + 1]).calls[id].status == Ended
    && EndsIt(Exec(db, ops[..k]), ops[k], id)
  }

  lemma EndedStays(db: Db, ops: seq<Op>, k: nat, id: CallId)
    requires ops != [] && EndedAt(db, ops[..|ops| - 1], k, id)
    ensures EndedAt(db, ops, k, id)
  {
    var pre := ops[..|ops| - 1];
    assert ops[..k] == pre[..k] && ops[..k + 1] == pre[..k + 1];
  }

  /** In every run, whatever fails: a call that is over was ended, while live, by a participant or its
      initiator, by a participant's reject while it rang, or by the last leave. */
  lemma {:induction false} EveryEndHasItsCause(w: World, ops: seq<Op>, id: CallId)
    requires LegalRun(Fresh(w), ops) && id in Exec(Fresh(w), ops).calls && Exec(Fresh(w), ops).calls[id].status == Ended
    ensures exists k: nat :: EndedAt(Fresh(w), ops, k, id)
  {
    var n := |ops| - 1;
    var pre := ops[..n];
    var s := Exec(Fresh(w), pre);
    if id in s.calls && s.calls[id].status == Ended {
      EveryEndHasItsCause(w, pre, id);
      var k: nat :| EndedAt(Fresh(w), pre, k, id);
      EndedStays(Fresh(w), ops, k, id);
    } else {
      RunKeeps(Fresh(w), pre);
      NewlyEnded(s, ops[n], id);
      assert ops[..n + 1] == ops;
      assert EndedAt(Fresh(w), ops, n, id);
    }
  }
}
