/** Closed channels: exactly when the hub sends on one or closes one again. */
module HubPanics {
  import opened Common
  import opened Messages
  import opened HubSpec
  import opened HubInvariants
  import opened HubTheorems

  /** Until shutdown: room members are registered, and channels are open exactly for them. */
  ghost predicate OpenOk(s: Hub) {
    !s.stopped ==>
      && (forall r :: r in s.mem.rooms ==> s.mem.rooms[r] <= s.registered)
      && s.registered !! s.closed
      && s.spawned == s.registered + s.closed
  }

  /** Targeted users map to registered clients that still carry that user id. */
  ghost predicate UsersOk(s: Hub) {
    !s.stopped ==>
      forall u :: u in s.userClients ==>
        u > 0 && s.userClients[u] in s.registered && Who(s, s.userClients[u]).userId == u
  }

  /** The client that one send of a call handler goes to, if any. */
  function Target(s: Hub, c: ClientId, effect: Effect): set<ClientId> {
    match effect
    case ToSelf(_) => {c}
    case ToUser(u, _) => if u in s.userClients then {s.userClients[u]} else {}
    case Pause(_) => {}
  }

  function Targets(s: Hub, c: ClientId, script: seq<Effect>): set<ClientId> {
    if script == [] then {} else Target(s, c, script[0]) + Targets(s, c, script[1..])
  }

  /** The clients that a step sends to by name, other than as members of a room. */
  function Answers(s: Hub, a: Action): set<ClientId> {
    match a
    case Handle(c, Call(_), env) => Targets(s, c, env.script)
    case Handle(c, _, _) => {c}
    case _ => {}
  }

  lemma {:induction false} TargetsSame(s: Hub, s': Hub, c: ClientId, script: seq<Effect>)
    requires s'.userClients == s.userClients
    ensures Targets(s', c, script) == Targets(s, c, script)
  {
    if script != [] {
      TargetsSame(s, s', c, script[1..]);
    }
  }

  lemma PerformPanicsIff(s: Hub, c: ClientId, effect: Effect)
    requires !s.panicked
    ensures Perform(s, c, effect).panicked <==> Target(s, c, effect) * s.closed != {}
  {
    forall d ensures {d} * s.closed == if d in s.closed then {d} else {} {}
  }

  lemma {:induction false} ScriptPanicsIff(s: Hub, c: ClientId, script: seq<Effect>)
    requires !s.panicked
    ensures PerformAll(s, c, script).panicked <==> Targets(s, c, script) * s.closed != {}
    decreases |script|
  {
    if script != [] {
      var s1, first, rest := Perform(s, c, script[0]), Target(s, c, script[0]), Targets(s, c, script[1..]);
      PerformPanicsIff(s, c, script[0]);
      assert (first + rest) * s.closed == first * s.closed + rest * s.closed;
      if !s1.panicked {
        TargetsSame(s, s1, c, script[1..]);
        ScriptPanicsIff(s1, c, script[1..]);
      }
    }
  }

  /** A step panics exactly when it answers a client whose channel is closed. */
  lemma PanicsIff(s: Hub, base: Table, a: Action)
    requires Inv(s, base) && OpenOk(s) && Enabled(s, a)
    ensures Step(s, a).panicked <==> Answers(s, a) * s.closed != {}
  {
    match a
    case Handle(c, cmd, env) => CommandPanicsIff(s, base, c, cmd, env);
    case Unregister(c, order) =>
      if c in s.registered {
        LeaveAllNeverPanics(s, base, c, order);
        LeaveAllKeeps(s, base, c, order);
      }
    case Register(_) =>
    case Take(_) =>
    case Identify(_, _) =>
    case CreateRoom(_, _) =>
    case Shutdown =>
  }

  lemma CommandPanicsIff(s: Hub, base: Table, c: ClientId, cmd: Command, env: Env)
    requires Inv(s, base) && OpenOk(s) && !s.stopped && !s.panicked && c in s.spawned
    ensures HandleCommand(s, c, cmd, env).panicked <==> Answers(s, Handle(c, cmd, env)) * s.closed != {}
  {
    assert {c} * s.closed == if c in s.closed then {c} else {};
    match cmd
    case Join(r) => JoinPanicsIff(s, c, r, env);
    case Leave(r) => if r in s.mem.rooms { assert s.mem.rooms[r] * s.closed == {}; }
    case Say(r, _, _) => assert Agrees(s.mem, c, r); if r in s.mem.rooms { assert s.mem.rooms[r] * s.closed == {}; }
    case Call(_) => ScriptPanicsIff(s, c, env.script);
  }

  lemma JoinPanicsIff(s: Hub, c: ClientId, r: string, env: Env)
    requires OpenOk(s) && !s.stopped && !s.panicked && c in s.spawned
    ensures JoinRoom(s, c, r, env).panicked <==> c in s.closed
  {
    if r != "" && !IsMember(s, c, r) {
      var m := AddMember(s.mem, c, r);
      if c in s.closed {
        assert c in m.rooms[r] * s.closed;
      } else {
        assert m.rooms[r] * s.closed == {};
      }
    }
  }

  lemma {:induction false} LeaveAllNeverPanics(s: Hub, base: Table, c: ClientId, order: seq<Stop>)
    requires Inv(s, base) && OpenOk(s) && !s.stopped && !s.panicked && Lists(Exits(order), RoomsOf(s.mem, c))
    ensures !LeaveAll(s, c, order).panicked
    decreases |order|
  {
    if order != [] {
      var s1 := Turn(s, c, order[0]);
      match order[0] {
        case Exit(r) =>
          ExitNeverPanics(s, c, order);
          ExitKeeps(s, base, c, order);
          MembersRegistered(s);
          MembersRegistered(s1);
        case Between(d) =>
          TakeOneKeeps(s, base, d);
          assert Exits(order) == Exits(order[1..]);
      }
      LeaveAllNeverPanics(s1, base, c, order[1..]);
    }
  }

  lemma ExitNeverPanics(s: Hub, c: ClientId, order: seq<Stop>)
    requires IndexOk(s.mem) && OpenOk(s) && !s.stopped && !s.panicked && Lists(Exits(order), RoomsOf(s.mem, c))
    requires order != [] && order[0].Exit?
    ensures !LeaveRoom(s, c, order[0].room).panicked
  {
    var r := order[0].room;
    assert Exits(order)[0] == r && Exits(order)[1..] == Exits(order[1..]);
    ListsTail(Exits(order), RoomsOf(s.mem, c));
    assert Agrees(s.mem, c, r);
    assert s.mem.rooms[r] * s.closed == {};
    assert DropMember(s.mem, c, r).rooms[r] * s.closed == {};
  }

  lemma MembersRegistered(s: Hub)
    ensures (forall r :: r in s.mem.rooms ==> s.mem.rooms[r] <= s.registered)
            <==> (forall d, r :: IsMember(s, d, r) ==> d in s.registered)
  {
    if forall d, r :: IsMember(s, d, r) ==> d in s.registered {
      forall r | r in s.mem.rooms ensures s.mem.rooms[r] <= s.registered {
        forall d | d in s.mem.rooms[r] ensures d in s.registered { assert IsMember(s, d, r); }
      }
    }
  }

  lemma OpenKept(s: Hub, base: Table, a: Action)
    requires Inv(s, base) && OpenOk(s) && Enabled(s, a) && !Step(s, a).panicked
    ensures OpenOk(Step(s, a))
  {
    var s' := Step(s, a);
    if !s'.stopped {
      assert a.Handle? && !a.cmd.Call? ==> (a.c in Answers(s, a) * s.closed <==> a.c in s.closed);
      PanicsIff(s, base, a);
      RegistrationAfter(s, base, a);
      MembersRegistered(s);
      forall d, r | IsMember(s', d, r) ensures d in s'.registered {
        StepMembers(s, base, a, d, r);
      }
      MembersRegistered(s');
    }
  }

  /** What each step does to registration, closing and user targets. */
  lemma RegistrationAfter(s: Hub, base: Table, a: Action)
    requires Inv(s, base) && Enabled(s, a) && !Step(s, a).panicked
    ensures var s' := Step(s, a);
            && s'.registered == (if a.Register? then s.registered + {a.c}
                                 else if a.Unregister? then s.registered - {a.c}
                                 else s.registered)
            && s'.closed == (if a.Unregister? && a.c in s.registered then s.closed + {a.c}
                             else if a.Shutdown? then s.closed + s.registered
                             else s.closed)
            && s'.spawned == (if a.Register? then s.spawned + {a.c} else s.spawned)
            && s'.stopped == (s.stopped || a.Shutdown?)
            && s'.who == (if a.Identify? then s.who[a.c := a.identity] else s.who)
            && (if a.Register? && Who(s, a.c).userId > 0 then s'.userClients == s.userClients[Who(s, a.c).userId := a.c]
                else if a.Unregister? && a.c in s.registered && Who(s, a.c).userId > 0
                then s'.userClients == s.userClients - {Who(s, a.c).userId}
                else s'.userClients == s.userClients)
  {
    match a
    case Unregister(c, order) => if c in s.registered { RemovalRelation(s, base, c, order); }
    case Handle(_, _, _) =>
    case Register(_) =>
    case Take(_) =>
    case Identify(_, _) =>
    case CreateRoom(_, _) =>
    case Shutdown =>
  }

  /** A registered client that has a user id keeps it. Getting one late, as hello gives it, is fine. */
  ghost predicate IdKept(s: Hub, a: Action) {
    a.Identify? && a.c in s.registered && Who(s, a.c).userId > 0 ==> a.identity.userId == Who(s, a.c).userId
  }

  lemma UsersKept(s: Hub, base: Table, a: Action)
    requires Inv(s, base) && OpenOk(s) && UsersOk(s) && Enabled(s, a) && IdKept(s, a)
    requires !Step(s, a).panicked
    ensures UsersOk(Step(s, a))
  {
    RegistrationAfter(s, base, a);
  }

  /** In every run, whatever happens to user ids. */
  lemma {:induction false} RunOpen(init: Hub, acts: seq<Action>)
    requires Initial(init) && Legal(init, acts) && PlainRun(acts) && !Exec(init, acts).panicked
    ensures OpenOk(Exec(init, acts))
  {
    if acts != [] {
      var pre, a := acts[..|acts| - 1], acts[|acts| - 1];
      RunOpen(init, pre);
      RunKeeps(init, pre);
      OpenKept(Exec(init, pre), init.store.table, a);
    }
  }

  ghost predicate IdsKept(init: Hub, acts: seq<Action>) {
    acts == [] ||
    (IdsKept(init, acts[..|acts| - 1]) && IdKept(Exec(init, acts[..|acts| - 1]), acts[|acts| - 1]))
  }

  lemma {:induction false} RunUsers(init: Hub, acts: seq<Action>)
    requires Initial(init) && Legal(init, acts) && PlainRun(acts) && IdsKept(init, acts) && !Exec(init, acts).panicked
    ensures UsersOk(Exec(init, acts))
  {
    if acts != [] {
      var pre, a := acts[..|acts| - 1], acts[|acts| - 1];
      RunUsers(init, pre);
      RunOpen(init, pre);
      RunKeeps(init, pre);
      UsersKept(Exec(init, pre), init.store.table, a);
    }
  }

  /** Registered and later unregistered, read off the run's labels alone. */
  ghost predicate Removed(acts: seq<Action>, c: ClientId) {
    exists i, j :: 0 <= i < j < |acts| && acts[i] == Register(c) && acts[j].Unregister? && acts[j].c == c
  }

  lemma RemovedAppend(pre: seq<Action>, a: Action, c: ClientId)
    ensures Removed(pre + [a], c) <==> Removed(pre, c) || (a.Unregister? && a.c == c && Register(c) in pre)
  {
    var acts := pre + [a];
    if Removed(pre, c) {
      var i, j :| 0 <= i < j < |pre| && pre[i] == Register(c) && pre[j].Unregister? && pre[j].c == c;
      assert acts[i] == Register(c) && acts[j].Unregister? && acts[j].c == c;
    } else if a.Unregister? && a.c == c && Register(c) in pre {
      var i :| 0 <= i < |pre| && pre[i] == Register(c);
      assert acts[i] == Register(c) && acts[|pre|] == a;
    }
  }

  lemma {:induction false} RunLabels(init: Hub, acts: seq<Action>, c: ClientId)
    requires Initial(init) && Legal(init, acts) && PlainRun(acts)
    requires !Exec(init, acts).panicked && !Exec(init, acts).stopped
    ensures c in Exec(init, acts).spawned <==> Register(c) in acts
    ensures c in Exec(init, acts).closed <==> Removed(acts, c)
  {
    if acts != [] {
      var pre, a := acts[..|acts| - 1], acts[|acts| - 1];
      var s := Exec(init, pre);
      RunOpen(init, pre);
      RunKeeps(init, pre);
      RegistrationAfter(s, init.store.table, a);
      RunLabels(init, pre, c);
      assert acts == pre + [a];
      RemovedAppend(pre, a, c);
    }
  }

  /** The hub panics, by sending on or closing a closed channel, in exactly those runs whose last step
      answers a client which the run itself had registered and then unregistered. */
  lemma PanicsExactlyForRemoved(init: Hub, acts: seq<Action>)
    requires Initial(init) && Legal(init, acts) && PlainRun(acts) && acts != []
    ensures var pre, last := acts[..|acts| - 1], acts[|acts| - 1];
            Exec(init, acts).panicked <==> exists d :: d in Answers(Exec(init, pre), last) && Removed(pre, d)
  {
    var pre, a := acts[..|acts| - 1], acts[|acts| - 1];
    var s := Exec(init, pre);
    RunKeeps(init, pre);
    RunOpen(init, pre);
    PanicsIff(s, init.store.table, a);
    Inhabited(Answers(s, a) * s.closed);
    if a.Handle? {
      forall d ensures d in s.closed <==> Removed(pre, d) {
        RunLabels(init, pre, d);
      }
      assert forall d :: d in Answers(s, a) * s.closed <==> d in Answers(s, a) && Removed(pre, d);
    }
  }

  lemma PanicsNext(init: Hub, acts: seq<Action>, a: Action)
    requires Initial(init) && Legal(init, acts + [a]) && PlainRun(acts + [a])
    ensures Exec(init, acts + [a]).panicked <==> exists d :: d in Answers(Exec(init, acts), a) && Removed(acts, d)
  {
    assert (acts + [a])[..|acts|] == acts;
    PanicsExactlyForRemoved(init, acts + [a]);
  }

  /** The step sends to the client whose command it handles. */
  ghost predicate AnswersOwn(a: Action) {
    a.Handle? && (a.cmd.Call? ==> exists k :: 0 <= k < |a.env.script| && a.env.script[k].ToSelf?)
  }

  lemma {:induction false} TargetIn(s: Hub, c: ClientId, script: seq<Effect>, d: ClientId)
    ensures d in Targets(s, c, script) <==> exists k :: 0 <= k < |script| && d in Target(s, c, script[k])
  {
    if script != [] {
      TargetIn(s, c, script[1..], d);
      if k :| 0 <= k < |script| && d in Target(s, c, script[k]) {
        assert k > 0 ==> script[1..][k - 1] == script[k];
      }
      if k :| 0 <= k < |script| - 1 && d in Target(s, c, script[1..][k]) {
        assert script[1..][k] == script[k + 1];
      }
    }
  }

  /** While registered clients keep the user id they have, only a removed client's own command can
      do it: user targets are never stale. */
  lemma PanicsOnlyByOwnCommand(init: Hub, acts: seq<Action>)
    requires Initial(init) && Legal(init, acts) && PlainRun(acts) && acts != [] && IdsKept(init, acts)
    ensures var pre, last := acts[..|acts| - 1], acts[|acts| - 1];
            Exec(init, acts).panicked <==> AnswersOwn(last) && Removed(pre, last.c)
  {
    var pre, a := acts[..|acts| - 1], acts[|acts| - 1];
    var s := Exec(init, pre);
    PanicsExactlyForRemoved(init, acts);
    RunUsers(init, pre);
    RunOpen(init, pre);
    if a.Handle? {
      forall d | d in Answers(s, a) && Removed(pre, d) ensures d == a.c && AnswersOwn(a) {
        RunLabels(init, pre, d);
        if a.cmd.Call? {
          TargetIn(s, a.c, a.env.script, d);
        }
      }
      if AnswersOwn(a) && a.cmd.Call? {
        TargetIn(s, a.c, a.env.script, a.c);
      }
    }
  }

  // ---- Concrete runs ----

  lemma ExecAppend(s: Hub, acts: seq<Action>, a: Action)
    ensures Exec(s, acts + [a]) == Step(Exec(s, acts), a)
    ensures Legal(s, acts + [a]) <==> Legal(s, acts) && Enabled(Exec(s, acts), a)
    ensures IdsKept(s, acts + [a]) <==> IdsKept(s, acts) && IdKept(Exec(s, acts), a)
  {
    assert (acts + [a])[..|acts|] == acts;
  }

  const EMPTY := Hub(
    {}, {}, {}, map[], map[], Membership(map[], map[]), Stored(map[], [], 1), Logs([], map[], map[]), false, false)

  /** Commands of a removed client are not filtered out: a join that was queued before the removal
      makes the hub send on the closed channel. */
  lemma RemovedClientPanics(r: string, env: Env)
    requires PlainScript(env.script)
    ensures var acts := [Register(1)] + [Unregister(1, [])] + [Handle(1, Join(r), env)];
            Initial(EMPTY) && Legal(EMPTY, acts) && PlainRun(acts) && IdsKept(EMPTY, acts) && Exec(EMPTY, acts).panicked
  {
    var a0, a1, a2 := Register(1), Unregister(1, []), Handle(1, Join(r), env);
    ExecAppend(EMPTY, [], a0);
    assert [] + [a0] == [a0];
    ExecAppend(EMPTY, [a0], a1);
    ExecAppend(EMPTY, [a0] + [a1], a2);
    var s1, s2 := Exec(EMPTY, [a0]), Exec(EMPTY, [a0] + [a1]);
    assert s1.registered == {1} && LeaveAll(s1, 1, []) == s1;
    assert s2.closed == {1} && s2.mem == Membership(map[], map[]);
    if r != "" {
      assert 1 in AddMember(s2.mem, 1, r).rooms[r] * s2.closed;
    }
  }

  /** If a registered client exchanges its user id for another, its removal leaves a stale entry
      behind, and another client's call to the old user is sent on a closed channel. */
  lemma StaleUserPanics(name: string, note: Event, req: CallRequest, env: Env)
    requires !note.History? && env.script == [ToUser(7, note)]
    ensures var acts := [Identify(1, Identity(7, name, false))] + [Register(1)] + [Register(2)]
                        + [Identify(1, Identity(8, name, false))] + [Unregister(1, [])] + [Handle(2, Call(req), env)];
            && Initial(EMPTY) && Legal(EMPTY, acts) && PlainRun(acts) && !IdsKept(EMPTY, acts)
            && Exec(EMPTY, acts).panicked
  {
    var a0, a1, a2 := Identify(1, Identity(7, name, false)), Register(1), Register(2);
    var a3, a4, a5 := Identify(1, Identity(8, name, false)), Unregister(1, []), Handle(2, Call(req), env);
    StalePrefix(name);
    var acts := [a0] + [a1] + [a2] + [a3];
    ExecAppend(EMPTY, acts, a4);
    ExecAppend(EMPTY, acts + [a4], a5);
    var s4 := Exec(EMPTY, acts);
    assert LeaveAll(s4, 1, []) == s4;
    NoteToClosed(Exec(EMPTY, acts + [a4]), note, req, env);
  }

  lemma StalePrefix(name: string)
    ensures var acts := [Identify(1, Identity(7, name, false))] + [Register(1)] + [Register(2)]
                        + [Identify(1, Identity(8, name, false))];
            var s := Exec(EMPTY, acts);
            && Legal(EMPTY, acts) && !IdsKept(EMPTY, acts) && !s.panicked && !s.stopped
            && s.userClients == map[7 := 1] && s.registered == s.spawned == {1, 2} && s.closed == {}
            && Who(s, 1).userId == 8 && s.mem == Membership(map[], map[])
  {
    var a0, a1, a2 := Identify(1, Identity(7, name, false)), Register(1), Register(2);
    ExecAppend(EMPTY, [], a0);
    assert [] + [a0] == [a0];
    ExecAppend(EMPTY, [a0], a1);
    ExecAppend(EMPTY, [a0] + [a1], a2);
    ExecAppend(EMPTY, [a0] + [a1] + [a2], Identify(1, Identity(8, name, false)));
  }

  lemma NoteToClosed(s: Hub, note: Event, req: CallRequest, env: Env)
    requires env.script == [ToUser(7, note)] && 7 in s.userClients && s.userClients[7] in s.closed && !s.panicked
    ensures Step(s, Handle(2, Call(req), env)).panicked
  {
    ScriptPanicsIff(s, 2, env.script);
    assert s.userClients[7] in Targets(s, 2, env.script) * s.closed;
  }
}
