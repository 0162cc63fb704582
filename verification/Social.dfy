/** Friendships and calls together: the call service reads the table that the friend service writes. */
module Social {
  import opened Common
  import Friends
  import opened Calls
  import CallTheorems
  import CallPresence

  /** One operation of either service; `Ring` also covers whatever happens to users, settings and rooms. */
  datatype Deed = Befriend(op: Friends.Op) | Ring(call: Op)

  ghost function Do(db: Db, d: Deed): Db {
    match d
    case Befriend(op) => db.(world := db.world.(friends := Friends.Step(db.world.friends, op)))
    case Ring(op) => Step(db, op)
  }

  /** The friends table is the friend service's alone. */
  ghost predicate CanDo(db: Db, d: Deed) {
    d.Ring? ==> Legal(db, d.call) && (d.call.Change? ==> d.call.world.friends == db.world.friends)
  }

  ghost function Run(w: World, deeds: seq<Deed>): Db {
    if deeds == [] then CallTheorems.Fresh(w) else Do(Run(w, deeds[..|deeds| - 1]), deeds[|deeds| - 1])
  }

  ghost predicate IsRun(w: World, deeds: seq<Deed>) {
    if deeds == [] then w.friends == map[]
    else IsRun(w, deeds[..|deeds| - 1]) && CanDo(Run(w, deeds[..|deeds| - 1]), deeds[|deeds| - 1])
  }

  lemma RunAppend(w: World, deeds: seq<Deed>, d: Deed)
    ensures Run(w, deeds + [d]) == Do(Run(w, deeds), d)
    ensures IsRun(w, deeds + [d]) <==> IsRun(w, deeds) && CanDo(Run(w, deeds), d)
  {
    assert (deeds + [d])[..|deeds|] == deeds;
  }

  /** The friend operations of a run, in order. */
  function FriendOps(deeds: seq<Deed>): seq<Friends.Op> {
    if deeds == [] then []
    else
      var d := deeds[|deeds| - 1];
      FriendOps(deeds[..|deeds| - 1]) + if d.Befriend? then [d.op] else []
  }

  lemma RingKeepsFriends(db: Db, op: Op)
    requires op.Change? ==> op.world.friends == db.world.friends
    ensures Step(db, op).world.friends == db.world.friends
  {
    match op
    case CreateDirect(_, _, _, _, _) =>
    case CreateInRoom(_, _, _, _, _, _) =>
    case Join(_, _, _, _) =>
    case End(_, _, _, _) =>
    case Reject(_, _, _, _) =>
    case Leave(_, _, _, _) =>
    case Change(_) =>
  }

  lemma {:induction false} FriendsAreAfter(w: World, deeds: seq<Deed>)
    requires IsRun(w, deeds)
    ensures Run(w, deeds).world.friends == Friends.After(FriendOps(deeds))
  {
    if deeds != [] {
      var pre, d := deeds[..|deeds| - 1], deeds[|deeds| - 1];
      FriendsAreAfter(w, pre);
      match d
      case Befriend(op) => Friends.LastStep(FriendOps(pre), op);
      case Ring(op) =>
        RingKeepsFriends(Run(w, pre), op);
        assert FriendOps(deeds) == FriendOps(pre);
    }
  }

  /** What the friend service has done says: one of the two asked and the other accepted later, and
      nothing has touched that friendship since. */
  ghost predicate Consented(ops: seq<Friends.Op>, x: int, y: int) {
    exists i: nat, j: nat ::
      && i < j && Friends.RequestedAt(ops, i, x, y) && Friends.AcceptedAt(ops, j, x, y)
      && Friends.Untouched(ops, i + 1, j, x, y)
  }

  /** In every joint run, whatever fails: a direct call to a user who takes calls from friends only is
      stored only after one of the two asked for friendship and the other accepted. */
  lemma FriendCallHadConsent(
    w: World, deeds: seq<Deed>, from: int, to: int, id: CallId, ext: string, f: Faults)
    requires IsRun(w, deeds) && to in Run(w, deeds).world.friendsOnly
    requires id !in Run(w, deeds).calls && id in CreateDirectCall(Run(w, deeds), from, to, id, ext, f).0.calls
    ensures Consented(FriendOps(deeds), from, to) || Consented(FriendOps(deeds), to, from)
  {
    var db, ops := Run(w, deeds), FriendOps(deeds);
    FriendsAreAfter(w, deeds);
    CallTheorems.FriendsOnlyNeedsAcceptedRow(db, from, to, id, ext, f, false);
    if Friends.Row(Friends.After(ops), from, to) == Some(Friends.Accepted) {
      Friends.FriendsConsented(ops, from, to);
    } else {
      Friends.FriendsConsented(ops, to, from);
    }
  }

  /** Step k stored a direct call to a friends-only user. */
  ghost predicate StoresAt(w: World, deeds: seq<Deed>, k: nat, id: CallId) {
    && k < |deeds| && deeds[k].Ring? && deeds[k].call.CreateDirect? && deeds[k].call.id == id
    && id !in Run(w, deeds[..k]).calls && id in Run(w, deeds[..k + 1]).calls
  }

  lemma {:induction false} RunInv(w: World, deeds: seq<Deed>)
    requires IsRun(w, deeds)
    ensures Inv(Run(w, deeds))
  {
    if deeds != [] {
      var pre, d := deeds[..|deeds| - 1], deeds[|deeds| - 1];
      RunInv(w, pre);
      match d
      case Befriend(op) => TameKeeps(Run(w, pre), Run(w, deeds));
      case Ring(op) => StepKeeps(Run(w, pre), op);
    }
  }

  /** Every stored direct call has such a step, and if its callee took calls from friends only at that
      moment, consent had been given by then. */
  lemma {:induction false} StoredCallsHadConsent(w: World, deeds: seq<Deed>, id: CallId)
    requires IsRun(w, deeds) && id in Run(w, deeds).calls && Run(w, deeds).calls[id].kind.Direct?
    ensures exists k: nat :: StoresAt(w, deeds, k, id) && HadConsent(w, deeds, k)
  {
    var n := |deeds| - 1;
    var pre, d := deeds[..n], deeds[n];
    RunInv(w, pre);
    assert deeds[..n + 1] == deeds;
    if id in Run(w, pre).calls {
      KindKept(Run(w, pre), d, id);
      StoredCallsHadConsent(w, pre, id);
      var k: nat :| StoresAt(w, pre, k, id) && HadConsent(w, pre, k);
      assert pre[..k] == deeds[..k] && pre[..k + 1] == deeds[..k + 1];
      assert StoresAt(w, deeds, k, id) && HadConsent(w, deeds, k);
    } else {
      CallPresence.NewDirectCall(Run(w, pre), d.call, id);
      var CreateDirect(from, to, _, ext, f) := d.call;
      if to in Run(w, pre).world.friendsOnly {
        FriendCallHadConsent(w, pre, from, to, id, ext, f);
      }
      assert StoresAt(w, deeds, n, id) && HadConsent(w, deeds, n);
    }
  }

  ghost predicate HadConsent(w: World, deeds: seq<Deed>, k: nat)
    requires k < |deeds| && deeds[k].Ring? && deeds[k].call.CreateDirect?
  {
    var from, to, ops := deeds[k].call.user, deeds[k].call.to, FriendOps(deeds[..k]);
    to in Run(w, deeds[..k]).world.friendsOnly ==> Consented(ops, from, to) || Consented(ops, to, from)
  }

  lemma KindKept(db: Db, d: Deed, id: CallId)
    requires Inv(db) && CanDo(db, d) && id in db.calls
    ensures id in Do(db, d).calls && Do(db, d).calls[id].kind == db.calls[id].kind
  {
    if d.Ring? {
      StepKeeps(db, d.call);
      assert CallForward(db.calls[id], Do(db, d).calls[id]);
    }
  }
}
