/**
 Who is in a call, read off the run itself, and how leaving and ending relate
 to that; and who the parties of a direct call are.
 */
module CallPresence {
  import opened Common
  import Rooms
  import opened Calls
  import opened CallTheorems

  // ---- Reading a run ----

  ghost predicate JoinSucceeds(db: Db, op: Op, id: CallId, u: int) {
    op.Join? && op.id == id && op.user == u && GetJoinInfo(db, id, u, op.now, op.f).1.Ok?
  }

  ghost predicate LeaveSucceeds(db: Db, op: Op, id: CallId, u: int) {
    op.Leave? && op.id == id && op.user == u && LeaveCall(db, id, u, op.now, op.f).1.Ok?
  }

  /** u has joined the call and has not left it since. */
  ghost predicate InCall(db: Db, ops: seq<Op>, id: CallId, u: int) {
    if ops == [] then false
    else
      var pre, op := ops[..|ops| - 1], ops[|ops| - 1];
      JoinSucceeds(Exec(db, pre), op, id, u) || (InCall(db, pre, id, u) && !LeaveSucceeds(Exec(db, pre), op, id, u))
  }

  /** u has left the call at least once. */
  ghost predicate HasLeft(db: Db, ops: seq<Op>, id: CallId, u: int) {
    if ops == [] then false
    else
      var pre, op := ops[..|ops| - 1], ops[|ops| - 1];
      HasLeft(db, pre, id, u) || LeaveSucceeds(Exec(db, pre), op, id, u)
  }

  ghost predicate MarkedLeft(db: Db, id: CallId, u: int) {
    (id, u) in db.parts && db.parts[(id, u)].leftAt.Some?
  }

  lemma LeaveMarks(db: Db, op: Op, id: CallId, u: int)
    requires LeaveSucceeds(db, op, id, u)
    ensures MarkedLeft(Step(db, op), id, u)
  {}

  lemma MarkStays(db: Db, op: Op, id: CallId, u: int)
    requires Inv(db) && Legal(db, op) && MarkedLeft(db, id, u)
    ensures MarkedLeft(Step(db, op), id, u)
  {
    StepKeeps(db, op);
    assert PartForward(db.parts[(id, u)], Step(db, op).parts[(id, u)]);
  }

  ghost predicate LiveCall(db: Db, id: CallId) {
    id in db.calls && Live(db.calls[id])
  }

  lemma JoinMarksNobody(db: Db, id: CallId, u: int, now: int, f: Faults, x: CallId, v: int)
    requires MarkedLeft(GetJoinInfo(db, id, u, now, f).0, x, v)
    ensures MarkedLeft(db, x, v)
  {}

  /** In a call that is still live, only leaving marks a participant as left. */
  lemma NewMarkIsLeave(db: Db, op: Op, id: CallId, u: int)
    requires Inv(db) && Legal(db, op) && LiveCall(Step(db, op), id)
    requires MarkedLeft(Step(db, op), id, u) && !MarkedLeft(db, id, u)
    ensures LeaveSucceeds(db, op, id, u)
  {
    match op
    case CreateDirect(_, _, _, _, _) =>
    case CreateInRoom(_, _, _, _, _, _) =>
    case Join(other, v, now, f) => JoinMarksNobody(db, other, v, now, f, id, u);
    case End(_, _, _, _) =>
    case Reject(_, _, _, _) =>
    case Leave(_, _, _, _) =>
    case Change(_) =>
  }

  lemma WasLive(db: Db, op: Op, id: CallId)
    requires Inv(db) && Legal(db, op) && id in db.calls && LiveCall(Step(db, op), id)
    ensures LiveCall(db, id)
  {
    StepKeeps(db, op);
    assert CallForward(db.calls[id], Step(db, op).calls[id]) && CallOk(db.calls[id]);
  }

  /** For a live call, left_at is set exactly for those who have left at least once. */
  lemma {:induction false} MarksTellWhoLeft(w: World, ops: seq<Op>, id: CallId, u: int)
    requires LegalRun(Fresh(w), ops) && LiveCall(Exec(Fresh(w), ops), id)
    ensures MarkedLeft(Exec(Fresh(w), ops), id, u) <==> HasLeft(Fresh(w), ops, id, u)
  {
    if ops != [] {
      var pre, op := ops[..|ops| - 1], ops[|ops| - 1];
      var s := Exec(Fresh(w), pre);
      RunKeeps(Fresh(w), pre);
      LastMark(s, op, id, u);
      if id in s.calls {
        WasLive(s, op, id);
        MarksTellWhoLeft(w, pre, id, u);
      } else {
        NoLeaveBefore(w, pre, id, u);
        assert !MarkedLeft(s, id, u);
      }
    }
  }

  lemma LastMark(db: Db, op: Op, id: CallId, u: int)
    requires Inv(db) && Legal(db, op) && LiveCall(Step(db, op), id)
    ensures MarkedLeft(Step(db, op), id, u) <==> MarkedLeft(db, id, u) || LeaveSucceeds(db, op, id, u)
  {
    if MarkedLeft(db, id, u) {
      MarkStays(db, op, id, u);
    } else if LeaveSucceeds(db, op, id, u) {
      LeaveMarks(db, op, id, u);
    } else if MarkedLeft(Step(db, op), id, u) {
      NewMarkIsLeave(db, op, id, u);
    }
  }

  /** Nobody has left a call that is not stored. */
  lemma {:induction false} NoLeaveBefore(w: World, ops: seq<Op>, id: CallId, u: int)
    requires LegalRun(Fresh(w), ops) && id !in Exec(Fresh(w), ops).calls
    ensures !HasLeft(Fresh(w), ops, id, u)
  {
    if ops != [] {
      var pre, op := ops[..|ops| - 1], ops[|ops| - 1];
      var s := Exec(Fresh(w), pre);
      RunKeeps(Fresh(w), pre);
      StepKeeps(s, op);
      NoLeaveBefore(w, pre, id, u);
    }
  }

  // ---- Ending a call under somebody ----

  /** The row of v is among those the listing of participants shows. */
  predicate Listed(f: Faults, v: int) {
    f.listed.None? || v in f.listed.value
  }

  ghost predicate SomebodyElseIn(db: Db, ops: seq<Op>, id: CallId, u: int) {
    exists v :: v != u && InCall(db, ops, id, v)
  }

  /** Whatever failed before and fails now: leaving ends a live call exactly when its own reads and
      writes succeed and everybody else that the listing shows has left at least once. */
  lemma LeaveEndsExactlyIf(w: World, ops: seq<Op>, id: CallId, u: int, now: int, f: Faults)
    requires LegalRun(Fresh(w), ops) && LiveCall(Exec(Fresh(w), ops), id)
    ensures var s := Exec(Fresh(w), ops);
            && id in LeaveCall(s, id, u, now, f).0.calls
            && (LeaveCall(s, id, u, now, f).0.calls[id].status == Ended <==>
                  && !f.part && (id, u) in s.parts && !f.updatePart && !f.getCall && !f.updateCall
                  && forall v :: v != u && (id, v) in s.parts && Listed(f, v) ==> HasLeft(Fresh(w), ops, id, v))
  {
    var s := Exec(Fresh(w), ops);
    LeaveEndsIff(s, id, u, now, f);
    forall v ensures MarkedLeft(s, id, v) <==> HasLeft(Fresh(w), ops, id, v) {
      MarksTellWhoLeft(w, ops, id, v);
    }
  }

  /** So, with the store working, a call ends under somebody who is still in it exactly when somebody
      else is in it and every other participant has left at least once: the others in the call are
      all people who left and came back. */
  lemma EndsUnderSomebodyIff(w: World, ops: seq<Op>, id: CallId, u: int, now: int, f: Faults)
    requires LegalRun(Fresh(w), ops) && LiveCall(Exec(Fresh(w), ops), id) && StoreSucceeds(f)
    ensures var s := Exec(Fresh(w), ops);
            && id in LeaveCall(s, id, u, now, f).0.calls
            && (LeaveCall(s, id, u, now, f).0.calls[id].status == Ended && SomebodyElseIn(Fresh(w), ops, id, u) <==>
                  && (id, u) in s.parts && SomebodyElseIn(Fresh(w), ops, id, u)
                  && forall v :: v != u && (id, v) in s.parts ==> HasLeft(Fresh(w), ops, id, v))
  {
    LeaveEndsExactlyIf(w, ops, id, u, now, f);
  }

  // ---- Concrete runs ----

  const FINE := Faults(
    false, false, false, false, false, false, false, false,
    false, false, false, false, Works, Works, false, false, None)

  lemma InCallAppend(db: Db, ops: seq<Op>, op: Op, id: CallId, u: int)
    ensures InCall(db, ops + [op], id, u)
            <==> JoinSucceeds(Exec(db, ops), op, id, u)
                 || (InCall(db, ops, id, u) && !LeaveSucceeds(Exec(db, ops), op, id, u))
  {
    assert (ops + [op])[..|ops|] == ops;
  }

  function Two(a: int, b: int): World {
    World({a, b}, {}, Rooms.EMPTY, map[])
  }

  function BothJoin(a: int, b: int, id: CallId, ext: string): seq<Op> {
    [CreateDirect(a, b, id, ext, FINE)] + [Join(id, a, 1, FINE)] + [Join(id, b, 2, FINE)]
  }

  function DirectDb(a: int, b: int, id: CallId, ext: string, status: Status, pa: Part, pb: Part): Db {
    Db(map[id := Call(Direct, a, status, Some(ext), None)], map[(id, a) := pa, (id, b) := pb], Two(a, b))
  }

  function Joined(p: Part, now: int): Part {
    if p.joinedAt.None? then p.(joinedAt := Some(now)) else p
  }

  lemma JoinFirst(a: int, b: int, id: CallId, ext: string, status: Status, pa: Part, pb: Part, now: int)
    requires a != b && (status == Ringing || status == Active)
    ensures var s, op := DirectDb(a, b, id, ext, status, pa, pb), Join(id, a, now, FINE);
            Step(s, op) == DirectDb(a, b, id, ext, Active, Joined(pa, now), pb) && JoinSucceeds(s, op, id, a)
  {
    AdmitDirect(a, b, id, ext, status, pa, pb, now);
  }

  lemma JoinSecond(a: int, b: int, id: CallId, ext: string, status: Status, pa: Part, pb: Part, now: int)
    requires a != b && (status == Ringing || status == Active)
    ensures var s, op := DirectDb(a, b, id, ext, status, pa, pb), Join(id, b, now, FINE);
            Step(s, op) == DirectDb(a, b, id, ext, Active, pa, Joined(pb, now)) && JoinSucceeds(s, op, id, b)
  {
    AdmitDirect(a, b, id, ext, status, pa, pb, now);
  }

  lemma AdmitDirect(a: int, b: int, id: CallId, ext: string, status: Status, pa: Part, pb: Part, now: int)
    requires a != b && (status == Ringing || status == Active)
    ensures var s := DirectDb(a, b, id, ext, status, pa, pb);
            && Admit(s, id, a, now, FINE)
               == (DirectDb(a, b, id, ext, Active, Joined(pa, now), pb), Ok(Creds(ext, a)))
            && Admit(s, id, b, now, FINE)
               == (DirectDb(a, b, id, ext, Active, pa, Joined(pb, now)), Ok(Creds(ext, b)))
  {
    var s, c := DirectDb(a, b, id, ext, status, pa, pb), Call(Direct, a, Active, Some(ext), None);
    assert s.calls[id := c] == map[id := c];
    assert s.parts[(id, a) := Joined(pa, now)] == map[(id, a) := Joined(pa, now), (id, b) := pb];
    assert s.parts[(id, b) := Joined(pb, now)] == map[(id, a) := pa, (id, b) := Joined(pb, now)];
    assert status == Active ==> s.calls == map[id := c];
    assert Joined(pa, now) == pa || pa.joinedAt.None?;
  }

  lemma LeaveDirect(a: int, b: int, id: CallId, ext: string, pa: Part, pb: Part, now: int)
    requires a != b && pb.leftAt.None?
    ensures Step(DirectDb(a, b, id, ext, Active, pa, pb), Leave(id, a, now, FINE))
         == DirectDb(a, b, id, ext, Active, pa.(leftAt := Some(now)), pb)
  {
    assert IsPresent(DirectDb(a, b, id, ext, Active, pa.(leftAt := Some(now)), pb), id, b);
  }

  lemma AfterBothJoin(a: int, b: int, id: CallId, ext: string)
    requires a != b
    ensures var init, ops := Fresh(Two(a, b)), BothJoin(a, b, id, ext);
            && LegalRun(init, ops)
            && Exec(init, ops) == DirectDb(a, b, id, ext, Active, Part(Some(1), None), Part(Some(2), None))
            && InCall(init, ops, id, a) && InCall(init, ops, id, b)
  {
    var init := Fresh(Two(a, b));
    var o1, o2, o3 := CreateDirect(a, b, id, ext, FINE), Join(id, a, 1, FINE), Join(id, b, 2, FINE);
    assert [] + [o1] == [o1];
    RunAppend(init, [], o1);
    RunAppend(init, [o1], o2);
    RunAppend(init, [o1] + [o2], o3);
    AfterCreate(a, b, id, ext);
    JoinFirst(a, b, id, ext, Ringing, Part(None, None), Part(None, None), 1);
    JoinSecond(a, b, id, ext, Active, Part(Some(1), None), Part(None, None), 2);
    InCallAppend(init, [o1], o2, id, a);
    InCallAppend(init, [o1] + [o2], o3, id, a);
    InCallAppend(init, [o1] + [o2], o3, id, b);
  }

  lemma AfterCreate(a: int, b: int, id: CallId, ext: string)
    requires a != b
    ensures Step(Fresh(Two(a, b)), CreateDirect(a, b, id, ext, FINE))
         == DirectDb(a, b, id, ext, Ringing, Part(None, None), Part(None, None))
  {}

  /** Create, join, join, leave, join again, and the other leaves: the call ends under the first. */
  lemma RejoinIsForgotten(a: int, b: int, id: CallId, ext: string)
    requires a != b
    ensures var init := Fresh(Two(a, b));
            var back := BothJoin(a, b, id, ext) + [Leave(id, a, 3, FINE)] + [Join(id, a, 4, FINE)];
            var ops := back + [Leave(id, b, 5, FINE)];
            LegalRun(init, ops) && id in Exec(init, ops).calls && Exec(init, ops).calls[id].status == Ended
            && InCall(init, ops, id, a)
  {
    var init, ops := Fresh(Two(a, b)), BothJoin(a, b, id, ext);
    var o4, o5, o6 := Leave(id, a, 3, FINE), Join(id, a, 4, FINE), Leave(id, b, 5, FINE);
    AfterBothJoin(a, b, id, ext);
    RunAppend(init, ops, o4);
    RunAppend(init, ops + [o4], o5);
    RunAppend(init, ops + [o4] + [o5], o6);
    LeaveDirect(a, b, id, ext, Part(Some(1), None), Part(Some(2), None), 3);
    JoinFirst(a, b, id, ext, Active, Part(Some(1), Some(3)), Part(Some(2), None), 4);
    InCallAppend(init, ops + [o4], o5, id, a);
    InCallAppend(init, ops + [o4] + [o5], o6, id, a);
    LeaveEndsIff(Exec(init, ops + [o4] + [o5]), id, b, 5, FINE);
  }

  /** A listing that fails at once ends the call under the one who is still in it. */
  lemma ListingCutsOff(a: int, b: int, id: CallId, ext: string)
    requires a != b
    ensures var init := Fresh(Two(a, b));
            var ops := BothJoin(a, b, id, ext) + [Leave(id, a, 3, FINE.(listed := Some({})))];
            LegalRun(init, ops) && id in Exec(init, ops).calls && Exec(init, ops).calls[id].status == Ended
            && InCall(init, ops, id, b)
  {
    var init, ops := Fresh(Two(a, b)), BothJoin(a, b, id, ext);
    var op := Leave(id, a, 3, FINE.(listed := Some({})));
    AfterBothJoin(a, b, id, ext);
    RunAppend(init, ops, op);
    InCallAppend(init, ops, op, id, b);
    LeaveEndsIff(Exec(init, ops), id, a, 3, op.f);
  }

  // ---- The parties of a direct call ----

  /** Step k stored the direct call. */
  ghost predicate StoredAt(db: Db, ops: seq<Op>, k: nat, id: CallId) {
    && k < |ops| && ops[k].CreateDirect? && ops[k].id == id
    && id !in Exec(db, ops[..k]).calls && id in Exec(db, ops[..k + 1]).calls
  }

  /** Direct calls get their participants when they are stored, and no others later. */
  lemma DirectPartsFixed(db: Db, op: Op, id: CallId, u: int)
    requires Inv(db) && Legal(db, op) && id in db.calls && db.calls[id].kind.Direct?
    requires (id, u) in Step(db, op).parts
    ensures (id, u) in db.parts
  {
    match op
    case CreateDirect(_, _, _, _, _) =>
    case CreateInRoom(_, _, _, _, _, _) =>
    case Join(_, _, _, _) =>
    case End(_, _, _, _) =>
    case Reject(_, _, _, _) =>
    case Leave(_, _, _, _) =>
    case Change(_) =>
  }

  lemma NewDirectCall(db: Db, op: Op, id: CallId)
    requires Inv(db) && Legal(db, op) && id !in db.calls && id in Step(db, op).calls
    requires Step(db, op).calls[id].kind.Direct?
    ensures op.CreateDirect? && op.id == id && op.user != op.to && Step(db, op).calls[id].initiator == op.user
    ensures forall u :: (id, u) in Step(db, op).parts ==> u == op.user || u == op.to
  {
    assert forall u :: (id, u) !in db.parts;
    match op
    case CreateDirect(_, _, _, _, _) =>
    case CreateInRoom(_, _, _, _, _, _) =>
    case Join(_, _, _, _) =>
    case End(_, _, _, _) =>
    case Reject(_, _, _, _) =>
    case Leave(_, _, _, _) =>
    case Change(_) =>
  }

  /** In every run, whatever fails: a direct call was stored by one CreateDirect step, its initiator is
      the caller of that step, and all its participants are that step's caller and callee. */
  lemma {:induction false} DirectPartiesAreNamed(w: World, ops: seq<Op>, id: CallId)
    requires LegalRun(Fresh(w), ops) && id in Exec(Fresh(w), ops).calls && Exec(Fresh(w), ops).calls[id].kind.Direct?
    ensures exists k: nat :: StoredAt(Fresh(w), ops, k, id) && OnlyNamed(Exec(Fresh(w), ops), id, ops[k])
  {
    var n := |ops| - 1;
    var pre, op := ops[..n], ops[n];
    var s, s' := Exec(Fresh(w), pre), Exec(Fresh(w), ops);
    RunKeeps(Fresh(w), pre);
    assert ops[..n + 1] == ops;
    if id in s.calls {
      StepKeeps(s, op);
      assert CallForward(s.calls[id], s'.calls[id]);
      DirectPartiesAreNamed(w, pre, id);
      var k: nat :| StoredAt(Fresh(w), pre, k, id) && OnlyNamed(s, id, pre[k]);
      StoredExtends(Fresh(w), ops, k, id);
      NamedStays(s, op, id, ops[k]);
    } else {
      NewDirectCall(s, op, id);
      assert StoredAt(Fresh(w), ops, n, id) && OnlyNamed(s', id, ops[n]);
    }
  }

  lemma StoredExtends(db: Db, ops: seq<Op>, k: nat, id: CallId)
    requires ops != [] && StoredAt(db, ops[..|ops| - 1], k, id)
    ensures StoredAt(db, ops, k, id)
  {
    var pre := ops[..|ops| - 1];
    assert ops[..k] == pre[..k] && ops[..k + 1] == pre[..k + 1];
  }

  lemma NamedStays(db: Db, op: Op, id: CallId, first: Op)
    requires Inv(db) && Legal(db, op) && first.CreateDirect? && OnlyNamed(db, id, first) && db.calls[id].kind.Direct?
    ensures OnlyNamed(Step(db, op), id, first)
  {
    StepKeeps(db, op);
    assert CallForward(db.calls[id], Step(db, op).calls[id]);
    forall u | (id, u) in Step(db, op).parts ensures u == first.user || u == first.to {
      DirectPartsFixed(db, op, id, u);
    }
  }

  ghost predicate OnlyNamed(db: Db, id: CallId, op: Op)
    requires op.CreateDirect?
  {
    && id in db.calls && db.calls[id].initiator == op.user && op.user != op.to
    && forall u :: (id, u) in db.parts ==> u == op.user || u == op.to
  }
}
