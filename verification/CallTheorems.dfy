/** What holds of calls over whole runs, and where the code falls short of it. */
module CallTheorems {
  import opened Common
  import Friends
  import opened Calls

  /** The service starts with no calls. */
  function Fresh(w: World): (db: Db)
    ensures Inv(db) && forall id :: Sound(db, id)
  {
    Db(map[], map[], w)
  }

  // ---- One live call per room ----

  /** If the room has a live call, the query answers with it, no second call is stored, and the
      caller gets that very call or an error. */
  lemma RoomCallIsShared(
    db: Db, ops: seq<Op>, live: CallId, u: int, room: int, found: Option<CallId>, id: CallId, ext: string, f: Faults)
    requires Inv(db) && LegalRun(db, ops)
    requires ActiveAnswer(Exec(db, ops), room, found) && ActiveAnswer(Exec(db, ops), room, Some(live))
    ensures found == Some(live)
    ensures var (db', r) := CreateRoomCall(Exec(db, ops), u, room, found, id, ext, f);
            db'.calls == Exec(db, ops).calls && (r.Ok? ==> r.value == live)
  {
    RunKeeps(db, ops);
    var now := Exec(db, ops);
    assert LiveInRoom(now, live);
    assert found.Some? ==> LiveInRoom(now, found.value);
  }

  // ---- Participants and credentials ----

  /** Credentials are issued for the call's own external room, to a participant of a live call; a
      newcomer must be a member of the call's room at that moment. */
  lemma CredentialsNeedParticipation(db: Db, id: CallId, u: int, now: int, f: Faults)
    requires GetJoinInfo(db, id, u, now, f).1.Ok?
    ensures var (db', r) := GetJoinInfo(db, id, u, now, f);
            && (id, u) in db'.parts && id in db.calls && id in db'.calls && Live(db.calls[id]) && Live(db'.calls[id])
            && db.calls[id].external == Some(r.value.room) && r.value.user == u
            && ((id, u) !in db.parts ==>
                  db.calls[id].kind.InRoom? && (u, db.calls[id].kind.room) in db.world.tables.members)
  {}

  /** Step k of the run added the participant while the user was a member of the call's room. */
  ghost predicate AddedAsMember(db: Db, ops: seq<Op>, k: nat, id: CallId, u: int, room: int) {
    && k < |ops|
    && (id, u) !in Exec(db, ops[..k]).parts && (id, u) in Exec(db, ops[..k + 1]).parts
    && (u, room) in Exec(db, ops[..k]).world.tables.members
  }

  lemma NewRoomPartIsMember(db: Db, op: Op, id: CallId, u: int)
    requires Inv(db) && Legal(db, op) && (id, u) in Step(db, op).parts && (id, u) !in db.parts
    requires id in Step(db, op).calls && Step(db, op).calls[id].kind.InRoom?
    ensures (u, Step(db, op).calls[id].kind.room) in db.world.tables.members
  {}

  /** Over every run, each participant of a room call was a room member when added. */
  lemma {:induction false} RoomPartsWereMembers(db: Db, ops: seq<Op>, id: CallId, u: int)
    requires Inv(db) && LegalRun(db, ops) && (id, u) !in db.parts && (id, u) in Exec(db, ops).parts
    requires id in Exec(db, ops).calls && Exec(db, ops).calls[id].kind.InRoom?
    ensures exists k: nat :: AddedAsMember(db, ops, k, id, u, Exec(db, ops).calls[id].kind.room)
  {
    assert ops != [];
    var n := |ops| - 1;
    var pre, room := ops[..n], Exec(db, ops).calls[id].kind.room;
    RunKeeps(db, pre);
    assert ops[..n + 1] == ops;
    if (id, u) in Exec(db, pre).parts {
      KindKept(Exec(db, pre), ops[n], id, u);
      RoomPartsWereMembers(db, pre, id, u);
      var k: nat :| AddedAsMember(db, pre, k, id, u, room);
      AddedExtends(db, ops, k, id, u, room);
    } else {
      NewRoomPartIsMember(Exec(db, pre), ops[n], id, u);
      assert AddedAsMember(db, ops, n, id, u, room);
    }
  }

  lemma KindKept(db: Db, op: Op, id: CallId, u: int)
    requires Inv(db) && Legal(db, op) && (id, u) in db.parts
    ensures id in db.calls && id in Step(db, op).calls && Step(db, op).calls[id].kind == db.calls[id].kind
  {
    StepKeeps(db, op);
    assert id in db.calls;
    assert CallForward(db.calls[id], Step(db, op).calls[id]);
  }

  lemma AddedExtends(db: Db, ops: seq<Op>, k: nat, id: CallId, u: int, room: int)
    requires ops != [] && AddedAsMember(db, ops[..|ops| - 1], k, id, u, room)
    ensures AddedAsMember(db, ops, k, id, u, room)
  {
    var pre := ops[..|ops| - 1];
    assert ops[..k] == pre[..k] && ops[..k + 1] == pre[..k + 1];
  }

  /** A direct call to a friends-only user is stored only if the pair is accepted; with one row for the
      pair, that row is what the lookup answers with. */
  lemma FriendsOnlyNeedsAcceptedRow(db: Db, from: int, to: int, id: CallId, ext: string, f: Faults, reverse: bool)
    requires to in db.world.friendsOnly && CreateDirectCall(db, from, to, id, ext, f).0 != db
    ensures Friends.IsFriend(db.world.friends, from, to)
    ensures Friends.OneRow(db.world.friends, from, to) ==>
              var k := Friends.GetFriendship(db.world.friends, from, to, reverse);
              k.Some? && db.world.friends[k.value] == Friends.Accepted
  {
    if Friends.OneRow(db.world.friends, from, to) {
      Friends.LookupAgrees(db.world.friends, from, to, reverse, reverse);
    }
  }

  // ---- When store calls succeed ----

  predicate StoreSucceeds(f: Faults) {
    && !f.getCall && !f.part && !f.rePart && !f.insert && f.add.Works? && f.addSecond.Works?
    && !f.updatePart && !f.updateCall && f.listed.None?
  }

  ghost predicate HasJoined(db: Db, id: CallId, u: int) {
    (id, u) in db.parts && db.parts[(id, u)].joinedAt.Some?
  }

  ghost predicate IsPresent(db: Db, id: CallId, u: int) {
    (id, u) in db.parts && db.parts[(id, u)].leftAt.None?
  }

  /** The initiator takes part; ringing: nobody has joined; active: somebody has; live: somebody has
      never left. */
  ghost predicate StatusOk(db: Db, id: CallId)
    requires id in db.calls
  {
    && (id, db.calls[id].initiator) in db.parts
    && (db.calls[id].status == Ringing ==> forall u :: !HasJoined(db, id, u))
    && (db.calls[id].status == Active ==> exists u :: HasJoined(db, id, u))
    && (Live(db.calls[id]) ==> exists u :: IsPresent(db, id, u))
  }

  ghost predicate Sound(db: Db, id: CallId) {
    id in db.calls ==> StatusOk(db, id)
  }

  /** The operation works on this call. */
  predicate Touches(op: Op, id: CallId) {
    match op
    case CreateDirect(_, _, x, _, _) => x == id
    case CreateInRoom(_, _, found, x, _, _) => x == id || found == Some(id)
    case Change(_) => false
    case _ => op.id == id
  }

  predicate SamePart(db: Db, db': Db, id: CallId, u: int) {
    && ((id, u) in db.parts <==> (id, u) in db'.parts)
    && ((id, u) in db.parts ==> db'.parts[(id, u)] == db.parts[(id, u)])
  }

  ghost predicate SameCall(db: Db, db': Db, id: CallId) {
    && (id in db.calls <==> id in db'.calls)
    && (id in db.calls ==> db'.calls[id] == db.calls[id])
    && forall u :: SamePart(db, db', id, u)
  }

  lemma JoinElsewhere(db: Db, id: CallId, u: int, now: int, f: Faults, x: CallId)
    requires x != id
    ensures SameCall(db, GetJoinInfo(db, id, u, now, f).0, x)
  {}

  /** Operations on other calls leave this one alone. */
  lemma Elsewhere(db: Db, op: Op, id: CallId)
    requires !Touches(op, id)
    ensures SameCall(db, Step(db, op), id)
  {
    match op
    case CreateDirect(_, _, _, _, _) =>
    case CreateInRoom(_, _, _, _, _, _) =>
    case Join(x, u, now, f) => JoinElsewhere(db, x, u, now, f, id);
    case End(_, _, _, _) =>
    case Reject(_, _, _, _) =>
    case Leave(_, _, _, _) =>
    case Change(_) =>
  }

  lemma SameIsSound(db: Db, db': Db, id: CallId)
    requires Sound(db, id) && SameCall(db, db', id)
    ensures Sound(db', id)
  {
    forall u
      ensures HasJoined(db', id, u) <==> HasJoined(db, id, u)
      ensures IsPresent(db', id, u) <==> IsPresent(db, id, u)
    {
      assert SamePart(db, db', id, u);
    }
    if id in db.calls {
      assert SamePart(db, db', id, db.calls[id].initiator);
    }
  }

  /** Participants joined or were added while the call stays as live. */
  lemma StatusCarries(db: Db, db': Db, id: CallId)
    requires id in db.calls && StatusOk(db, id) && id in db'.calls && db'.calls[id].status == db.calls[id].status
    requires (id, db'.calls[id].initiator) in db'.parts
    requires forall u :: IsPresent(db, id, u) ==> IsPresent(db', id, u)
    requires forall u :: HasJoined(db, id, u) ==> HasJoined(db', id, u)
    requires db.calls[id].status == Ringing ==> forall u :: HasJoined(db', id, u) ==> HasJoined(db, id, u)
    ensures StatusOk(db', id)
  {}

  lemma CreateDirectStatus(db: Db, u: int, to: int, id: CallId, ext: string, f: Faults)
    requires Inv(db) && Sound(db, id) && StoreSucceeds(f)
    ensures Sound(CreateDirectCall(db, u, to, id, ext, f).0, id)
  {
    var db' := CreateDirectCall(db, u, to, id, ext, f).0;
    if db' != db {
      assert forall v :: (id, v) !in db.parts;
      assert IsPresent(db', id, u);
    }
  }

  lemma CreateInRoomStatus(
    db: Db, u: int, room: int, found: Option<CallId>, id: CallId, ext: string, f: Faults, x: CallId)
    requires Inv(db) && Sound(db, x) && StoreSucceeds(f) && ActiveAnswer(db, room, found)
    requires x == id || found == Some(x)
    ensures Sound(CreateRoomCall(db, u, room, found, id, ext, f).0, x)
  {
    var db' := CreateRoomCall(db, u, room, found, id, ext, f).0;
    if db' != db {
      if found == Some(x) {
        StatusCarries(db, db', x);
      } else if found.None? {
        assert forall v :: (id, v) !in db.parts;
        assert IsPresent(db', id, u);
      } else {
        SameIsSound(db, db', x);
      }
    }
  }

  lemma AdmitStatus(db: Db, id: CallId, u: int, now: int, f: Faults)
    requires Sound(db, id) && StoreSucceeds(f) && id in db.calls && (id, u) in db.parts && Live(db.calls[id])
    ensures var db' := Admit(db, id, u, now, f).0;
            && Sound(db', id) && HasJoined(db', id, u)
            && db'.calls.Keys == db.calls.Keys && db'.calls[id].status == Active
            && db'.calls[id].initiator == db.calls[id].initiator
            && db'.parts.Keys == db.parts.Keys
  {
    var db' := Admit(db, id, u, now, f).0;
    assert HasJoined(db', id, u);
    var v :| IsPresent(db, id, v);
    assert IsPresent(db', id, v);
  }

  /** A successful join of the call, seen as admission of somebody who is or becomes a participant. */
  lemma JoinStatus(db: Db, id: CallId, u: int, now: int, f: Faults)
    requires Sound(db, id) && StoreSucceeds(f)
    ensures var (db', r) := GetJoinInfo(db, id, u, now, f);
            && Sound(db', id)
            && (r.Ok? ==> HasJoined(db', id, u) && id in db'.calls && db'.calls[id].status == Active)
  {
    var (db', r) := GetJoinInfo(db, id, u, now, f);
    if db' != db || r.Ok? {
      if (id, u) in db.parts {
        AdmitStatus(db, id, u, now, f);
      } else {
        var db1 := AddPart(db, id, u, f.add).0;
        StatusCarries(db, db1, id);
        AdmitStatus(db1, id, u, now, f);
      }
    }
  }

  lemma LeaveStatus(db: Db, id: CallId, u: int, now: int, f: Faults)
    requires Inv(db) && Sound(db, id) && StoreSucceeds(f)
    ensures Sound(LeaveCall(db, id, u, now, f).0, id)
  {
    var db' := LeaveCall(db, id, u, now, f).0;
    if db' != db {
      assert id in db.calls && CallOk(db.calls[id]);
      if db'.calls[id].status != Ended {
        var v :| (id, v) in db'.parts && db'.parts[(id, v)].leftAt.None?;
        assert IsPresent(db', id, v);
        forall w ensures HasJoined(db', id, w) <==> HasJoined(db, id, w) {}
      }
    }
  }

  ghost predicate Succeeds(op: Op) {
    op.Change? || StoreSucceeds(op.f)
  }

  lemma StepStatus(db: Db, op: Op, id: CallId)
    requires Inv(db) && Legal(db, op) && Sound(db, id) && (Touches(op, id) ==> Succeeds(op))
    ensures Sound(Step(db, op), id)
  {
    if Touches(op, id) {
      match op
      case CreateDirect(u, to, _, ext, f) => CreateDirectStatus(db, u, to, id, ext, f);
      case CreateInRoom(u, room, found, x, ext, f) => CreateInRoomStatus(db, u, room, found, x, ext, f, id);
      case Join(_, u, now, f) => JoinStatus(db, id, u, now, f);
      case Leave(_, u, now, f) => LeaveStatus(db, id, u, now, f);
      case End(_, _, _, _) =>
      case Reject(_, _, _, _) =>
      case Change(_) =>
    } else {
      Elsewhere(db, op, id);
      SameIsSound(db, Step(db, op), id);
    }
  }

  /** All operations of the run on this call have working store calls. */
  ghost predicate WorksFor(ops: seq<Op>, id: CallId) {
    forall k :: 0 <= k < |ops| && Touches(ops[k], id) ==> Succeeds(ops[k])
  }

  /** In every run, a call whose own operations find the store working has a status that tells who
      joined and who is left, whatever fails for other calls. */
  lemma {:induction false} RunStatus(db: Db, ops: seq<Op>, id: CallId)
    requires Inv(db) && Sound(db, id) && LegalRun(db, ops) && WorksFor(ops, id)
    ensures Sound(Exec(db, ops), id)
  {
    if ops != [] {
      var pre := ops[..|ops| - 1];
      assert WorksFor(pre, id);
      RunStatus(db, pre, id);
      RunKeeps(db, pre);
      StepStatus(Exec(db, pre), ops[|ops| - 1], id);
    }
  }

  // ---- Leaving ----

  /** Exactly when leaving ends a live call: the writes succeed, and everybody else that the
      listing shows has left. */
  lemma LeaveEndsIff(db: Db, id: CallId, u: int, now: int, f: Faults)
    requires id in db.calls && Live(db.calls[id])
    ensures LeaveCall(db, id, u, now, f).0.calls[id].status == Ended <==>
              && !f.part && (id, u) in db.parts && !f.updatePart && !f.getCall && !f.updateCall
              && forall v :: v != u && (f.listed.None? || v in f.listed.value) ==> !IsPresent(db, id, v)
  {
    if !f.part && (id, u) in db.parts && !f.updatePart {
      var db1 := SetPart(db, id, u, db.parts[(id, u)].(leftAt := Some(now)), false);
      if AllLeft(db1, id, f.listed) {
        forall v | v != u && (f.listed.None? || v in f.listed.value) ensures !IsPresent(db, id, v) {
          assert (id, v) in db.parts ==> db1.parts[(id, v)] == db.parts[(id, v)];
        }
      } else {
        var v :| (id, v) in db1.parts && (f.listed.None? || v in f.listed.value) && db1.parts[(id, v)].leftAt.None?;
        assert IsPresent(db, id, v);
      }
    }
  }

  /** The intended law, that a call ends by leaving only with its last participant, fails exactly
      when listing the participants fails before any remaining one is read. */
  lemma LeaveCutsOffIff(db: Db, id: CallId, u: int, now: int, f: Faults)
    requires id in db.calls && Live(db.calls[id])
    requires !f.part && (id, u) in db.parts && !f.updatePart && !f.getCall && !f.updateCall
    ensures (LeaveCall(db, id, u, now, f).0.calls[id].status == Ended && exists v :: v != u && IsPresent(db, id, v))
            <==> f.listed.Some? && (exists v :: v != u && IsPresent(db, id, v))
                 && forall v :: v != u && IsPresent(db, id, v) ==> v !in f.listed.value
  {
    LeaveEndsIff(db, id, u, now, f);
  }

  // ---- Accepting ----

  /** The hub's accept: credentials for the acceptor, then for the initiator. */
  ghost function AcceptCall(db: Db, id: CallId, u: int, now: int, f: Faults, g: Faults): (Db, Result<Creds, Error>) {
    var (db1, first) := GetJoinInfo(db, id, u, now, f);
    if first.Err? then (db1, first)
    else if g.getCall || id !in db1.calls then (db1, Err(CallNotFound))
    else (GetJoinInfo(db1, id, db1.calls[id].initiator, now, g).0, first)
  }

  lemma AcceptActivates(db: Db, id: CallId, u: int, now: int, f: Faults, g: Faults)
    requires Inv(db) && Sound(db, id) && StoreSucceeds(f) && StoreSucceeds(g) && !g.noEngine
    requires AcceptCall(db, id, u, now, f, g).1.Ok? && id in db.calls
    ensures var db' := AcceptCall(db, id, u, now, f, g).0;
            && id in db'.calls && db'.calls[id].status == Active
            && HasJoined(db', id, u) && HasJoined(db', id, db.calls[id].initiator)
  {
    var db1 := GetJoinInfo(db, id, u, now, f).0;
    JoinTame(db, id, u, now, f);
    assert CallForward(db.calls[id], db1.calls[id]);
    JoinStatus(db, id, u, now, f);
    var i := db.calls[id].initiator;
    AdmitStatus(db1, id, i, now, g);
    JoinTame(db1, id, i, now, g);
    var db' := GetJoinInfo(db1, id, i, now, g).0;
    assert PartForward(db1.parts[(id, u)], db'.parts[(id, u)]);
  }

  /** In every run: after an accept, the call being one whose operations find the store working, the
      call is active and both sides have joined. */
  lemma AcceptJoinsBoth(w: World, ops: seq<Op>, id: CallId, u: int, now: int, f: Faults, g: Faults)
    requires LegalRun(Fresh(w), ops) && WorksFor(ops, id) && StoreSucceeds(f) && StoreSucceeds(g) && !g.noEngine
    requires AcceptCall(Exec(Fresh(w), ops), id, u, now, f, g).1.Ok?
    ensures var db, db' := Exec(Fresh(w), ops), AcceptCall(Exec(Fresh(w), ops), id, u, now, f, g).0;
            && id in db.calls && id in db'.calls && db'.calls[id].status == Active
            && HasJoined(db', id, u) && HasJoined(db', id, db.calls[id].initiator)
  {
    RunKeeps(Fresh(w), ops);
    RunStatus(Fresh(w), ops, id);
    AcceptActivates(Exec(Fresh(w), ops), id, u, now, f, g);
  }
}
