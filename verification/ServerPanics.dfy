/** Closed channels in the whole server: exactly which runs end in a panic. */
module ServerPanics {
  import opened Common
  import opened HubSpec
  import HubPanics
  import Rooms
  import HubInvariants
  import opened Transport
  import opened Server

  /** The run registered c and later unregistered it. */
  ghost predicate RemovedIn(moves: seq<Move>, c: ClientId) {
    exists i: nat, j: nat :: i < j && RegistersAt(moves, i, c) && UnregistersAt(moves, j, c)
  }

  predicate RegistersAt(moves: seq<Move>, i: nat, c: ClientId) {
    i < |moves| && moves[i] == HubDo(Register(c))
  }

  predicate UnregistersAt(moves: seq<Move>, j: nat, c: ClientId) {
    j < |moves| && moves[j].HubDo? && moves[j].action.Unregister? && moves[j].action.c == c
  }

  lemma TraceLast(init: Sys, moves: seq<Move>)
    requires moves != []
    ensures var a := ActionOf(Run(init, Init(moves)), Last(moves));
            Trace(init, moves) == if a.None? then Trace(init, Init(moves)) else Trace(init, Init(moves)) + [a.value]
  {}

  lemma ActionIs(s: Sys, mv: Move, c: ClientId)
    requires CanMove(s, mv)
    ensures ActionOf(s, mv) == Some(Register(c)) <==> mv == HubDo(Register(c))
    ensures ActionOf(s, mv).Some? && ActionOf(s, mv).value.Unregister? && ActionOf(s, mv).value.c == c
            <==> UnregistersAt([mv], 0, c)
  {}

  ghost predicate RegisteredIn(moves: seq<Move>, c: ClientId) {
    exists i: nat :: RegistersAt(moves, i, c)
  }

  lemma RegisteredLast(moves: seq<Move>, c: ClientId)
    requires moves != []
    ensures RegisteredIn(moves, c) <==> RegisteredIn(Init(moves), c) || Last(moves) == HubDo(Register(c))
  {
    var pre, last := Init(moves), |moves| - 1;
    if RegisteredIn(pre, c) {
      var i: nat :| RegistersAt(pre, i, c);
      assert RegistersAt(moves, i, c);
    }
    if RegisteredIn(moves, c) {
      var i: nat :| RegistersAt(moves, i, c);
      assert i < last ==> RegistersAt(pre, i, c);
    }
    assert Last(moves) == HubDo(Register(c)) ==> RegistersAt(moves, last, c);
  }

  lemma {:induction false} TraceRegisters(init: Sys, moves: seq<Move>, c: ClientId)
    requires IsRun(init, moves)
    ensures Register(c) in Trace(init, moves) <==> RegisteredIn(moves, c)
  {
    if moves != [] {
      TraceRegisters(init, Init(moves), c);
      TraceLast(init, moves);
      ActionIs(Run(init, Init(moves)), Last(moves), c);
      RegisteredLast(moves, c);
    }
  }

  lemma RemovedLast(moves: seq<Move>, c: ClientId)
    requires moves != []
    ensures RemovedIn(moves, c)
            <==> RemovedIn(Init(moves), c)
                 || (UnregistersAt(moves, |moves| - 1, c) && RegisteredIn(Init(moves), c))
  {
    var pre, last := Init(moves), |moves| - 1;
    if RemovedIn(pre, c) {
      var i: nat, j: nat :| i < j && RegistersAt(pre, i, c) && UnregistersAt(pre, j, c);
      assert RegistersAt(moves, i, c) && UnregistersAt(moves, j, c);
    }
    if UnregistersAt(moves, last, c) && RegisteredIn(pre, c) {
      var i: nat :| RegistersAt(pre, i, c);
      assert RegistersAt(moves, i, c);
    }
    if RemovedIn(moves, c) {
      var i: nat, j: nat :| i < j && RegistersAt(moves, i, c) && UnregistersAt(moves, j, c);
      assert RegistersAt(pre, i, c) && (j < last ==> UnregistersAt(pre, j, c));
    }
  }

  /** The hub's own record of removals is that of the server's run. */
  lemma {:induction false} TraceRemoves(init: Sys, moves: seq<Move>, c: ClientId)
    requires IsRun(init, moves)
    ensures HubPanics.Removed(Trace(init, moves), c) <==> RemovedIn(moves, c)
  {
    if moves != [] {
      var pre, mv := Init(moves), Last(moves);
      var a := ActionOf(Run(init, pre), mv);
      TraceRemoves(init, pre, c);
      TraceLast(init, moves);
      TraceRegisters(init, pre, c);
      RemovedLast(moves, c);
      ActionIs(Run(init, pre), mv, c);
      if a.Some? {
        HubPanics.RemovedAppend(Trace(init, pre), a.value, c);
      }
    }
  }

  /** The clients that a step of the server sends to by name, other than as members of a room. */
  function Answered(s: Sys, mv: Move): set<ClientId> {
    var a := ActionOf(s, mv);
    if a.None? then {} else HubPanics.Answers(s.hub, a.value)
  }

  /** In every run of the server, with identities set and changed by hello as the code does: the hub
      panics exactly when it handles a command that answers a client which was removed before. */
  lemma ServerPanicsExactly(init: Sys, moves: seq<Move>)
    requires IsRun(init, moves) && moves != []
    ensures var s := Run(init, Init(moves));
            Run(init, moves).hub.panicked
            <==> exists d :: d in Answered(s, Last(moves)) && RemovedIn(Init(moves), d)
  {
    var pre, mv := Init(moves), Last(moves);
    var s, a := Run(init, pre), ActionOf(Run(init, pre), mv);
    SystemRunsTheHub(init, pre);
    if a.Some? {
      SystemRunsTheHub(init, moves);
      TraceLast(init, moves);
      HubPanics.PanicsNext(init.hub, Trace(init, pre), a.value);
      SameRemoved(init, pre, Answered(s, mv));
    }
  }

  lemma SameRemoved(init: Sys, moves: seq<Move>, cs: set<ClientId>)
    requires IsRun(init, moves)
    ensures (exists d :: d in cs && HubPanics.Removed(Trace(init, moves), d))
            <==> exists d :: d in cs && RemovedIn(moves, d)
  {
    forall d ensures HubPanics.Removed(Trace(init, moves), d) <==> RemovedIn(moves, d) {
      TraceRemoves(init, moves, d);
    }
  }

  /** In particular, a chat command panics exactly when its client was removed while it was queued. */
  lemma ChatPanicsExactly(init: Sys, moves: seq<Move>)
    requires IsRun(init, moves) && moves != [] && Last(moves).HandleNext?
    requires !Run(init, Init(moves)).pipe.shared[0].cmd.Call?
    ensures Run(init, moves).hub.panicked <==> RemovedIn(Init(moves), Run(init, Init(moves)).pipe.shared[0].c)
  {
    ServerPanicsExactly(init, moves);
    var s := Run(init, Init(moves));
    assert Answered(s, Last(moves)) == {s.pipe.shared[0].c};
  }

  // ---- A concrete run ----

  lemma RunAppend(init: Sys, moves: seq<Move>, mv: Move)
    ensures Run(init, moves + [mv]) == Next(Run(init, moves), mv)
    ensures IsRun(init, moves + [mv]) <==> IsRun(init, moves) && CanMove(Run(init, moves), mv)
  {
    assert Init(moves + [mv]) == moves;
  }

  const GUESTS := Config(false, 0, 0)

  const IDLE := Sys(GUESTS, map[], Pipe(map[], map[], map[], map[], [], []), HubPanics.EMPTY, Rooms.EMPTY)

  /** Connected, registered, and a command accepted by the read loop. */
  function Accepting(name: string, r: string): seq<Move> {
    [Connect(1, name)] + [HubDo(Register(1))] + [Receive(1, Request(Leave(r)), Lookups(true, true))]
  }

  /** The command goes down the pipeline. */
  function Queueing(name: string, r: string): seq<Move> {
    Accepting(name, r) + [Put(1)] + [Consume(1)] + [Forward(1)]
  }

  predicate HubOfOne(h: Hub) {
    && !h.panicked && !h.stopped && h.registered == {1} && h.spawned == {1} && h.closed == {}
    && h.mem == Membership(map[], map[])
  }

  lemma AfterRegister(name: string)
    ensures var moves := [Connect(1, name)] + [HubDo(Register(1))];
            IsRun(IDLE, moves) && HubOfOne(Run(IDLE, moves).hub) && Run(IDLE, moves).cfg == GUESTS
            && Run(IDLE, moves).conns == map[1 := NewConn(GUESTS)]
            && Run(IDLE, moves).pipe == IDLE.pipe.(sent := map[1 := []])
  {
    var m1 := Connect(1, name);
    assert Start(IDLE);
    assert [] + [m1] == [m1];
    RunAppend(IDLE, [], m1);
    RunAppend(IDLE, [m1], HubDo(Register(1)));
  }

  lemma AfterAccepting(name: string, r: string)
    requires r != ""
    ensures IsRun(IDLE, Accepting(name, r))
    ensures var s := Run(IDLE, Accepting(name, r));
            && HubOfOne(s.hub) && s.pipe.shared == [] && Held(s.pipe.own, 1) == [] && Held(s.pipe.inflight, 1) == []
            && Held(s.pipe.pending, 1) == [Leave(r)]
  {
    AfterRegister(name);
    RunAppend(IDLE, [Connect(1, name)] + [HubDo(Register(1))], Receive(1, Request(Leave(r)), Lookups(true, true)));
  }

  lemma AfterQueueing(name: string, r: string)
    requires r != ""
    ensures IsRun(IDLE, Queueing(name, r))
    ensures var s := Run(IDLE, Queueing(name, r));
            HubOfOne(s.hub) && s.pipe.shared == [Job(1, Leave(r))]
  {
    var ms := Accepting(name, r);
    AfterAccepting(name, r);
    RunAppend(IDLE, ms, Put(1));
    RunAppend(IDLE, ms + [Put(1)], Consume(1));
    RunAppend(IDLE, ms + [Put(1)] + [Consume(1)], Forward(1));
  }

  /** A command comes down the pipeline, its connection closes and the client is removed, and then
      the command is handled: the hub answers on the closed channel. */
  lemma QueuedCommandPanics(name: string, r: string, env: Env)
    requires r != "" && HubInvariants.PlainScript(env.script)
    ensures var moves := Queueing(name, r) + [HubDo(Unregister(1, []))] + [HandleNext(env)];
            IsRun(IDLE, moves) && Run(IDLE, moves).hub.panicked
  {
    var ms, gone := Queueing(name, r), HubDo(Unregister(1, []));
    AfterRemoval(name, r);
    RunAppend(IDLE, ms + [gone], HandleNext(env));
    ChatPanicsExactly(IDLE, ms + [gone] + [HandleNext(env)]);
    assert Init(ms + [gone] + [HandleNext(env)]) == ms + [gone];
    assert RegistersAt(ms + [gone], 1, 1) && UnregistersAt(ms + [gone], 6, 1);
  }

  lemma AfterRemoval(name: string, r: string)
    requires r != ""
    ensures var moves := Queueing(name, r) + [HubDo(Unregister(1, []))];
            var s := Run(IDLE, moves);
            IsRun(IDLE, moves) && !s.hub.panicked && !s.hub.stopped && s.pipe.shared == [Job(1, Leave(r))]
  {
    AfterQueueing(name, r);
    var s := Run(IDLE, Queueing(name, r));
    RunAppend(IDLE, Queueing(name, r), HubDo(Unregister(1, [])));
    assert LeaveAll(s.hub, 1, []) == s.hub;
  }
}
