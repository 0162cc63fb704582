/**
 Calls: the service operations over the call and participant tables, each one
 atomic step, with every store and engine call allowed to fail.
 */
module Calls {
  import opened Common
  import Friends
  import Rooms

  type CallId = string

  datatype Status = Ringing | Active | Ended | Failed

  datatype Kind = Direct | InRoom(room: int)

  datatype Call = Call(kind: Kind, initiator: int, status: Status, external: Option<string>, endedAt: Option<int>)

  datatype Part = Part(joinedAt: Option<int>, leftAt: Option<int>)

  /** The tables the service reads but does not write. */
  datatype World = World(
    users: set<int>, friendsOnly: set<int>, tables: Rooms.Tables, friends: Friends.Table)

  /** Calls by id, participants by their unique key (call_id, user_id). */
  datatype Db = Db(calls: map<CallId, Call>, parts: map<(CallId, int), Part>, world: World)

  /** Which calls fail during one operation. `noEngine`: calls are not enabled; `add`, `addSecond`: a
      participant may also be added and an error still reported; `listed`: when
      listing the participants fails, the users whose rows were read before the failure. */
  datatype Faults = Faults(
    noEngine: bool, user: bool, settings: bool, friend: bool, room: bool, member: bool, active: bool,
    getCall: bool, part: bool, rePart: bool, engine: bool, insert: bool, add: Write, addSecond: Write,
    updatePart: bool, updateCall: bool, listed: Option<set<int>>)

  datatype Error =
    | NotEnabled | CannotCallSelf | UserNotFound | NotAllowed | RoomNotFound | NotRoomMember
    | CallNotFound | CallOver | NotParticipant | StoreError

  datatype Creds = Creds(room: string, user: int)

  predicate Live(c: Call) {
    c.status == Ringing || c.status == Active
  }

  // ---- The store ----

  function AddPart(db: Db, id: CallId, u: int, w: Write): (Db, bool) {
    if w.Fails? || (id, u) in db.parts then (db, false)
    else (db.(parts := db.parts[(id, u) := Part(None, None)]), w.Works?)
  }

  function SetPart(db: Db, id: CallId, u: int, p: Part, fails: bool): Db {
    if fails || (id, u) !in db.parts then db else db.(parts := db.parts[(id, u) := p])
  }

  function SetCall(db: Db, id: CallId, c: Call, fails: bool): Db {
    if fails || id !in db.calls then db else db.(calls := db.calls[id := c])
  }

  /** A possible answer of the query for the live call of a room. */
  ghost predicate ActiveAnswer(db: Db, room: int, found: Option<CallId>) {
    match found
    case Some(id) => id in db.calls && db.calls[id].kind == InRoom(room) && Live(db.calls[id])
    case None => forall id :: id in db.calls && db.calls[id].kind == InRoom(room) ==> !Live(db.calls[id])
  }

  // ---- The operations ----

  /** Stores a new ringing call; the id is the primary key. */
  function NewCall(db: Db, id: CallId, kind: Kind, initiator: int, external: string, f: Faults): (Db, bool) {
    if f.engine || f.insert || id in db.calls then (db, false)
    else (db.(calls := db.calls[id := Call(kind, initiator, Ringing, Some(external), None)]), true)
  }

  function CreateDirectCall(db: Db, from: int, to: int, id: CallId, external: string, f: Faults)
    : (Db, Result<CallId, Error>)
  {
    if f.noEngine then (db, Err(NotEnabled))
    else if from == to then (db, Err(CannotCallSelf))
    else if f.user || to !in db.world.users then (db, Err(UserNotFound))
    else if f.settings then (db, Err(StoreError))
    else if to in db.world.friendsOnly && f.friend then (db, Err(StoreError))
    else if to in db.world.friendsOnly && !Friends.IsFriend(db.world.friends, from, to) then (db, Err(NotAllowed))
    else
      var (db1, stored) := NewCall(db, id, Direct, from, external, f);
      if !stored then (db1, Err(StoreError)) else
      var (db2, first) := AddPart(db1, id, from, f.add);
      if !first then (db2, Err(StoreError)) else
      var (db3, second) := AddPart(db2, id, to, f.addSecond);
      (db3, if second then Ok(id) else Err(StoreError))
  }

  function CreateRoomCall(
    db: Db, u: int, room: int, found: Option<CallId>, id: CallId, external: string, f: Faults)
    : (Db, Result<CallId, Error>)
  {
    if f.noEngine then (db, Err(NotEnabled))
    else if f.room || room !in db.world.tables.rooms then (db, Err(RoomNotFound))
    else if f.member then (db, Err(StoreError))
    else if (u, room) !in db.world.tables.members then (db, Err(NotRoomMember))
    else if f.active then (db, Err(StoreError))
    else if found.Some? then
      if !f.part && (found.value, u) in db.parts then (db, Ok(found.value))
      else
        var (db1, added) := AddPart(db, found.value, u, f.add);
        (db1, if added then Ok(found.value) else Err(StoreError))
    else
      var (db1, stored) := NewCall(db, id, InRoom(room), u, external, f);
      if !stored then (db1, Err(StoreError)) else
      var (db2, added) := AddPart(db1, id, u, f.add);
      (db2, if added then Ok(id) else Err(StoreError))
  }

  /** The end of GetJoinInfo for a participant of a live call: mark joined, activate, issue. */
  function Admit(db: Db, id: CallId, u: int, now: int, f: Faults): (Db, Result<Creds, Error>)
    requires id in db.calls && (id, u) in db.parts
  {
    var p, c := db.parts[(id, u)], db.calls[id];
    var db1 := if p.joinedAt.None? then SetPart(db, id, u, p.(joinedAt := Some(now)), f.updatePart) else db;
    var db2 := if c.status == Ringing then SetCall(db1, id, c.(status := Active), f.updateCall) else db1;
    (db2, if f.user || u !in db.world.users then Err(UserNotFound)
          else if f.engine || c.external.None? then Err(StoreError)
          else Ok(Creds(c.external.value, u)))
  }

  function GetJoinInfo(db: Db, id: CallId, u: int, now: int, f: Faults): (Db, Result<Creds, Error>) {
    if f.noEngine then (db, Err(NotEnabled))
    else if f.getCall || id !in db.calls then (db, Err(CallNotFound))
    else if !Live(db.calls[id]) then (db, Err(CallOver))
    else if !f.part && (id, u) in db.parts then Admit(db, id, u, now, f)
    else if db.calls[id].kind.Direct? then (db, Err(NotParticipant))
    else if f.member || (u, db.calls[id].kind.room) !in db.world.tables.members then (db, Err(NotParticipant))
    else
      var (db1, added) := AddPart(db, id, u, f.add);
      if !added then (db1, Err(StoreError)) else Admit(db1, id, u, now, f)
  }

  function EndCall(db: Db, id: CallId, u: int, now: int, f: Faults): (Db, Result<(), Error>) {
    if f.getCall || id !in db.calls then (db, Err(CallNotFound))
    else if !Live(db.calls[id]) then (db, Ok(()))
    else if (f.part || (id, u) !in db.parts) && db.calls[id].initiator != u then (db, Err(NotParticipant))
    else if f.updateCall then (db, Err(StoreError))
    else (SetCall(db, id, db.calls[id].(status := Ended, endedAt := Some(now)), false), Ok(()))
  }

  function RejectCall(db: Db, id: CallId, u: int, now: int, f: Faults): (Db, Result<(), Error>) {
    if f.getCall || id !in db.calls then (db, Err(CallNotFound))
    else if db.calls[id].status != Ringing then (db, Err(CallOver))
    else if f.part || (id, u) !in db.parts then (db, Err(NotParticipant))
    else if f.updateCall then (db, Err(StoreError))
    else
      var db1 := SetCall(db, id, db.calls[id].(status := Ended, endedAt := Some(now)), false);
      (if f.rePart then db1 else SetPart(db1, id, u, db.parts[(id, u)].(leftAt := Some(now)), f.updatePart), Ok(()))
  }

  /** Every participant row of the call that the listing shows has left. */
  ghost predicate AllLeft(db: Db, id: CallId, listed: Option<set<int>>) {
    forall v :: (id, v) in db.parts && (listed.None? || v in listed.value) ==> db.parts[(id, v)].leftAt.Some?
  }

  ghost function LeaveCall(db: Db, id: CallId, u: int, now: int, f: Faults): (Db, Result<(), Error>) {
    if f.part || (id, u) !in db.parts then (db, Err(NotParticipant))
    else if f.updatePart then (db, Err(StoreError))
    else
      var db1 := SetPart(db, id, u, db.parts[(id, u)].(leftAt := Some(now)), false);
      (if AllLeft(db1, id, f.listed) && !f.getCall && id in db1.calls && db1.calls[id].status != Ended
       then SetCall(db1, id, db1.calls[id].(status := Ended, endedAt := Some(now)), f.updateCall)
       else db1, Ok(()))
  }

  datatype Op =
    | CreateDirect(user: int, to: int, id: CallId, external: string, f: Faults)
    | CreateInRoom(user: int, room: int, found: Option<CallId>, id: CallId, external: string, f: Faults)
    | Join(id: CallId, user: int, now: int, f: Faults)
    | End(id: CallId, user: int, now: int, f: Faults)
    | Reject(id: CallId, user: int, now: int, f: Faults)
    | Leave(id: CallId, user: int, now: int, f: Faults)
    | Change(world: World)   // anything else that happens to the other tables

  ghost function Step(db: Db, op: Op): Db {
    match op
    case CreateDirect(u, to, id, ext, f) => CreateDirectCall(db, u, to, id, ext, f).0
    case CreateInRoom(u, room, found, id, ext, f) => CreateRoomCall(db, u, room, found, id, ext, f).0
    case Join(id, u, now, f) => GetJoinInfo(db, id, u, now, f).0
    case End(id, u, now, f) => EndCall(db, id, u, now, f).0
    case Reject(id, u, now, f) => RejectCall(db, id, u, now, f).0
    case Leave(id, u, now, f) => LeaveCall(db, id, u, now, f).0
    case Change(w) => db.(world := w)
  }

  ghost predicate Legal(db: Db, op: Op) {
    op.CreateInRoom? ==> ActiveAnswer(db, op.room, op.found)
  }

  ghost function Exec(db: Db, ops: seq<Op>): Db {
    if ops == [] then db else Step(Exec(db, ops[..|ops| - 1]), ops[|ops| - 1])
  }

  ghost predicate LegalRun(db: Db, ops: seq<Op>) {
    ops == [] || (LegalRun(db, ops[..|ops| - 1]) && Legal(Exec(db, ops[..|ops| - 1]), ops[|ops| - 1]))
  }

  lemma RunAppend(db: Db, ops: seq<Op>, op: Op)
    ensures Exec(db, ops + [op]) == Step(Exec(db, ops), op)
    ensures LegalRun(db, ops + [op]) <==> LegalRun(db, ops) && Legal(Exec(db, ops), op)
  {
    assert (ops + [op])[..|ops|] == ops;
  }

  lemma {:induction false} RunConcat(db: Db, a: seq<Op>, b: seq<Op>)
    ensures Exec(db, a + b) == Exec(Exec(db, a), b)
    ensures LegalRun(db, a + b) <==> LegalRun(db, a) && LegalRun(Exec(db, a), b)
  {
    if b == [] {
      assert a + b == a;
    } else {
      RunConcat(db, a, b[..|b| - 1]);
      assert (a + b)[..|a + b| - 1] == a + b[..|b| - 1];
    }
  }

  // ---- Whatever fails: calls only move forward ----

  function Rank(s: Status): int {
    match s case Ringing => 0 case Active => 1 case Ended => 2 case Failed => 2
  }

  /** What a call may become: identity and external room kept, status never back, once over for good. */
  predicate CallForward(c: Call, d: Call) {
    && d.kind == c.kind && d.initiator == c.initiator && d.external == c.external
    && Rank(c.status) <= Rank(d.status)
    && (c.status == Ended ==> d == c)
  }

  predicate PartForward(p: Part, q: Part) {
    (p.joinedAt.Some? ==> q.joinedAt == p.joinedAt) && (p.leftAt.Some? ==> q.leftAt.Some?)
  }

  ghost predicate Forward(db: Db, db': Db) {
    && (forall id :: id in db.calls ==> id in db'.calls && CallForward(db.calls[id], db'.calls[id]))
    && (forall k :: k in db.parts ==> k in db'.parts && PartForward(db.parts[k], db'.parts[k]))
  }

  predicate CallOk(c: Call) {
    c.status != Failed && (c.endedAt.Some? <==> c.status == Ended) && c.external.Some?
  }

  ghost predicate Inv(db: Db) {
    && (forall id :: id in db.calls ==> CallOk(db.calls[id]))
    && (forall id, u :: (id, u) in db.parts ==> id in db.calls)
    && OneLivePerRoom(db)
    && (forall id :: id in db.calls && db.calls[id].kind.Direct? ==> TwoParties(db, id))
  }

  ghost predicate OneLivePerRoom(db: Db) {
    forall x, y :: LiveInRoom(db, x) && LiveInRoom(db, y) && db.calls[x].kind == db.calls[y].kind ==> x == y
  }

  predicate LiveInRoom(db: Db, id: CallId) {
    id in db.calls && db.calls[id].kind.InRoom? && Live(db.calls[id])
  }

  /** All participants are the initiator and one other, distinct user. */
  ghost predicate TwoParties(db: Db, id: CallId)
    requires id in db.calls
  {
    exists other :: other != db.calls[id].initiator && OnlyParties(db, id, other)
  }

  ghost predicate OnlyParties(db: Db, id: CallId, other: int)
    requires id in db.calls
  {
    forall u :: (id, u) in db.parts ==> u == db.calls[id].initiator || u == other
  }

  /** A forward change of existing calls that adds participants to room calls only. */
  ghost predicate Tame(db: Db, db': Db) {
    && Forward(db, db') && db'.calls.Keys == db.calls.Keys
    && (forall id :: id in db'.calls && CallOk(db.calls[id]) ==> CallOk(db'.calls[id]))
    && (forall id, u :: (id, u) in db'.parts && (id, u) !in db.parts ==> id in db.calls && db.calls[id].kind.InRoom?)
  }

  lemma SetPartTame(db: Db, id: CallId, u: int, p: Part, fails: bool)
    requires (id, u) in db.parts ==> PartForward(db.parts[(id, u)], p)
    ensures Tame(db, SetPart(db, id, u, p, fails))
  {}

  lemma SetCallTame(db: Db, id: CallId, c: Call, fails: bool)
    requires id in db.calls ==> CallForward(db.calls[id], c) && (CallOk(db.calls[id]) ==> CallOk(c))
    ensures Tame(db, SetCall(db, id, c, fails))
  {}

  lemma AddPartTame(db: Db, id: CallId, u: int, w: Write)
    requires id in db.calls && db.calls[id].kind.InRoom?
    ensures Tame(db, AddPart(db, id, u, w).0)
  {}

  lemma TameTransitive(a: Db, b: Db, c: Db)
    requires Tame(a, b) && Tame(b, c)
    ensures Tame(a, c)
  {}

  lemma ForwardTransitive(a: Db, b: Db, c: Db)
    requires Forward(a, b) && Forward(b, c)
    ensures Forward(a, c)
  {}

  lemma AdmitTame(db: Db, id: CallId, u: int, now: int, f: Faults)
    requires id in db.calls && (id, u) in db.parts && Live(db.calls[id])
    ensures Tame(db, Admit(db, id, u, now, f).0)
  {
    var p, c := db.parts[(id, u)], db.calls[id];
    var db1 := if p.joinedAt.None? then SetPart(db, id, u, p.(joinedAt := Some(now)), f.updatePart) else db;
    SetPartTame(db, id, u, if p.joinedAt.None? then p.(joinedAt := Some(now)) else p, f.updatePart);
    assert Tame(db, db);
    SetCallTame(db1, id, if c.status == Ringing then c.(status := Active) else c, f.updateCall);
    assert Tame(db1, db1);
    TameTransitive(db, db1, Admit(db, id, u, now, f).0);
  }

  lemma JoinTame(db: Db, id: CallId, u: int, now: int, f: Faults)
    ensures Tame(db, GetJoinInfo(db, id, u, now, f).0)
  {
    var db' := GetJoinInfo(db, id, u, now, f).0;
    if !f.noEngine && !f.getCall && id in db.calls && Live(db.calls[id]) {
      if !f.part && (id, u) in db.parts {
        AdmitTame(db, id, u, now, f);
      } else if db.calls[id].kind.InRoom? {
        AddPartTame(db, id, u, f.add);
        var (db1, added) := AddPart(db, id, u, f.add);
        if added && db' != db {
          AdmitTame(db1, id, u, now, f);
          TameTransitive(db, db1, db');
        }
      }
    }
  }

  lemma EndTame(db: Db, id: CallId, u: int, now: int, f: Faults)
    ensures Tame(db, EndCall(db, id, u, now, f).0)
  {
    if id in db.calls && Live(db.calls[id]) {
      SetCallTame(db, id, db.calls[id].(status := Ended, endedAt := Some(now)), false);
    }
  }

  lemma RejectTame(db: Db, id: CallId, u: int, now: int, f: Faults)
    ensures Tame(db, RejectCall(db, id, u, now, f).0)
  {
    if id in db.calls && Live(db.calls[id]) && (id, u) in db.parts {
      var db1 := SetCall(db, id, db.calls[id].(status := Ended, endedAt := Some(now)), false);
      SetCallTame(db, id, db.calls[id].(status := Ended, endedAt := Some(now)), false);
      var p := db.parts[(id, u)].(leftAt := Some(now));
      SetPartTame(db1, id, u, p, f.updatePart);
      TameTransitive(db, db1, SetPart(db1, id, u, p, f.updatePart));
    }
  }

  lemma LeaveTame(db: Db, id: CallId, u: int, now: int, f: Faults)
    requires id in db.calls ==> db.calls[id].status != Failed
    ensures Tame(db, LeaveCall(db, id, u, now, f).0)
  {
    if (id, u) in db.parts {
      var p := db.parts[(id, u)].(leftAt := Some(now));
      var db1 := SetPart(db, id, u, p, false);
      SetPartTame(db, id, u, p, false);
      if id in db.calls && db.calls[id].status != Ended {
        var c := db.calls[id].(status := Ended, endedAt := Some(now));
        SetCallTame(db1, id, c, f.updateCall);
        TameTransitive(db, db1, SetCall(db1, id, c, f.updateCall));
      }
    }
  }

  lemma TameKeeps(db: Db, db': Db)
    requires Inv(db) && Tame(db, db')
    ensures Inv(db')
  {
    forall id, u | (id, u) in db'.parts ensures id in db'.calls {
      if (id, u) in db.parts { assert id in db.calls; }
    }
    forall id | id in db'.calls && db'.calls[id].kind.Direct? ensures TwoParties(db', id) {
      assert CallForward(db.calls[id], db'.calls[id]) && TwoParties(db, id);
      var other :| other != db.calls[id].initiator && OnlyParties(db, id, other);
      assert OnlyParties(db', id, other);
    }
    forall x | LiveInRoom(db', x) ensures LiveInRoom(db, x) && db.calls[x].kind == db'.calls[x].kind {
      assert CallForward(db.calls[x], db'.calls[x]) && CallOk(db.calls[x]);
    }
  }

  lemma NewCallKeeps(db: Db, db': Db, id: CallId, c: Call, other: int)
    requires Inv(db) && id !in db.calls && CallOk(c) && other != c.initiator
    requires db'.calls == db.calls[id := c]
    requires c.kind.InRoom? ==> ActiveAnswer(db, c.kind.room, None)
    requires forall x, u :: (x, u) in db'.parts ==> (x, u) in db.parts || (x == id && (u == c.initiator || u == other))
    ensures Inv(db')
  {
    forall x, u | (x, u) in db'.parts ensures x in db'.calls {
      if (x, u) in db.parts { assert x in db.calls; }
    }
    forall x | LiveInRoom(db', x) && x != id ensures LiveInRoom(db, x) && db.calls[x].kind == db'.calls[x].kind {}
    forall x | x in db'.calls && db'.calls[x].kind.Direct? ensures TwoParties(db', x) {
      if x == id {
        assert forall u :: (id, u) !in db.parts;
        assert OnlyParties(db', id, other);
      } else {
        assert TwoParties(db, x);
        var o :| o != db.calls[x].initiator && OnlyParties(db, x, o);
        assert OnlyParties(db', x, o);
      }
    }
  }

  lemma CreateDirectKeeps(db: Db, u: int, to: int, id: CallId, ext: string, f: Faults)
    requires Inv(db)
    ensures var db' := CreateDirectCall(db, u, to, id, ext, f).0; Inv(db') && Forward(db, db')
  {
    var db' := CreateDirectCall(db, u, to, id, ext, f).0;
    if db' != db {
      NewCallKeeps(db, db', id, Call(Direct, u, Ringing, Some(ext), None), to);
    }
  }

  lemma CreateInRoomKeeps(db: Db, u: int, room: int, found: Option<CallId>, id: CallId, ext: string, f: Faults)
    requires Inv(db) && ActiveAnswer(db, room, found)
    ensures var db' := CreateRoomCall(db, u, room, found, id, ext, f).0; Inv(db') && Forward(db, db')
  {
    var db' := CreateRoomCall(db, u, room, found, id, ext, f).0;
    if found.Some? {
      AddPartTame(db, found.value, u, f.add);
      if db' != db { TameKeeps(db, db'); }
    } else if db' != db {
      NewCallKeeps(db, db', id, Call(InRoom(room), u, Ringing, Some(ext), None), u + 1);
    }
  }

  lemma StepKeeps(db: Db, op: Op)
    requires Inv(db) && Legal(db, op)
    ensures Inv(Step(db, op)) && Forward(db, Step(db, op))
  {
    match op
    case CreateDirect(u, to, id, ext, f) => CreateDirectKeeps(db, u, to, id, ext, f);
    case CreateInRoom(u, room, found, id, ext, f) => CreateInRoomKeeps(db, u, room, found, id, ext, f);
    case Join(id, u, now, f) => JoinTame(db, id, u, now, f); TameKeeps(db, Step(db, op));
    case End(id, u, now, f) => EndTame(db, id, u, now, f); TameKeeps(db, Step(db, op));
    case Reject(id, u, now, f) => RejectTame(db, id, u, now, f); TameKeeps(db, Step(db, op));
    case Leave(id, u, now, f) =>
      assert id in db.calls ==> CallOk(db.calls[id]);
      LeaveTame(db, id, u, now, f);
      TameKeeps(db, Step(db, op));
    case Change(_) => TameKeeps(db, Step(db, op));
  }

  /** In every run, whatever fails: the invariant, and only forward moves between any two points. */
  lemma {:induction false} RunKeeps(db: Db, ops: seq<Op>)
    requires Inv(db) && LegalRun(db, ops)
    ensures Inv(Exec(db, ops)) && Forward(db, Exec(db, ops))
  {
    if ops != [] {
      var pre := ops[..|ops| - 1];
      RunKeeps(db, pre);
      StepKeeps(Exec(db, pre), ops[|ops| - 1]);
      ForwardTransitive(db, Exec(db, pre), Exec(db, ops));
    }
  }
}
