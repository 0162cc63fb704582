/**
 Connections, command queues, store and hub together. A command goes from the
 read loop into the client's own queue, through the client's consumer into the
 shared queue, and from there into the event loop; every arrow is one step and
 steps of different clients interleave freely.
 */
module Server {
  import opened Common
  import opened HubSpec
  import Messages
  import HubInvariants
  import HubTheorems
  import HubPanics
  import Rooms
  import opened Transport

  const OWN_CAP := 8
  const SHARED_CAP := 64

  datatype Job = Job(c: ClientId, cmd: Command)

  /** Where commands are. `pending`: accepted by the read loop, waiting for room in the client's
      queue; `inflight`: held by the consumer. `sent` and `handled` record the past. */
  datatype Pipe = Pipe(
    sent: map<ClientId, seq<Command>>,
    pending: map<ClientId, seq<Command>>,
    own: map<ClientId, seq<Command>>,
    inflight: map<ClientId, seq<Command>>,
    shared: seq<Job>,
    handled: seq<Job>)

  datatype Sys = Sys(cfg: Config, conns: map<ClientId, Conn>, pipe: Pipe, hub: Hub, rooms: Rooms.Tables)

  /** Whether the two store reads of the join check succeed. */
  datatype Lookups = Lookups(room: bool, member: bool)

  datatype Move =
    | Connect(c: ClientId, name: string)
    | Receive(c: ClientId, frame: Frame, lookups: Lookups)
    | Tick(c: ClientId, join: bool)
    | Put(c: ClientId)
    | Consume(c: ClientId)
    | Forward(c: ClientId)
    | HandleNext(env: Env)
    | HubDo(action: Action)
    | RoomDo(op: Rooms.Op)

  function Held(m: map<ClientId, seq<Command>>, c: ClientId): seq<Command> {
    Get(m, c, [])
  }

  // ---- Steps ----

  function AccessTo(s: Sys, user: int, name: string, lookups: Lookups): Access {
    if !lookups.room || name !in s.hub.store.roomIds then NoRoom
    else
      var id := s.hub.store.roomIds[name];
      match KindOf(s.rooms, id)
      case Public => PublicRoom
      case Private => MembersOnly(if lookups.member then Some((user, id) in s.rooms.members) else None)
      case Direct => MembersOnly(if lookups.member then Some((user, id) in s.rooms.members) else None)
      case Channel => OtherRoom
  }

  function KindOf(t: Rooms.Tables, id: int): Rooms.Kind {
    if id in t.rooms then t.rooms[id].kind else Rooms.Channel
  }

  /** What the read loop of c does with a frame. */
  function Reading(s: Sys, c: ClientId, frame: Frame, lookups: Lookups): (Conn, Identity, Outcome) {
    var id := Who(s.hub, c);
    var access := if frame.Request? && frame.cmd.Join? then AccessTo(s, id.userId, frame.cmd.room, lookups) else NoRoom;
    ReadFrame(s.cfg, Get(s.conns, c, NewConn(s.cfg)), id, frame, access)
  }

  ghost predicate CanMove(s: Sys, mv: Move) {
    && !s.hub.panicked
    && match mv
       case Connect(c, _) => c !in s.pipe.sent
       case Receive(c, _, _) => c in s.conns && Held(s.pipe.pending, c) == []
       case Tick(c, _) => c in s.conns
       case Put(c) => Held(s.pipe.pending, c) != [] && |Held(s.pipe.own, c)| < OWN_CAP
       case Consume(c) => c in s.hub.spawned && Held(s.pipe.own, c) != [] && Held(s.pipe.inflight, c) == []
       case Forward(c) => Held(s.pipe.inflight, c) != [] && |s.pipe.shared| < SHARED_CAP
       case HandleNext(env) => !s.hub.stopped && s.pipe.shared != [] && HubInvariants.PlainScript(env.script)
       case HubDo(a) =>
         && !a.Handle? && !a.Identify? && !a.CreateRoom? && Enabled(s.hub, a)
         && (a.Register? ==> a.c in s.pipe.sent)
       case RoomDo(op) => Rooms.Legal(s.rooms, op)
  }

  /** The hub action that a step performs, if any. */
  function ActionOf(s: Sys, mv: Move): Option<Action> {
    match mv
    case Connect(c, name) => Some(Identify(c, Identity(0, name, false)))
    case Receive(c, frame, lookups) =>
      var (_, id, out) := Reading(s, c, frame, lookups);
      if frame.Hello? && out.Silent? then Some(Identify(c, id)) else None
    case HandleNext(env) =>
      if s.pipe.shared == [] then None else Some(Handle(s.pipe.shared[0].c, s.pipe.shared[0].cmd, env))
    case HubDo(a) => Some(a)
    case RoomDo(op) => NewRoom(s.rooms, Rooms.Step(s.rooms, op))
    case _ => None
  }

  /** The hub finds a new room by its name as soon as it is stored. */
  function NewRoom(t: Rooms.Tables, t': Rooms.Tables): Option<Action> {
    var id := t.nextId;
    if id !in t.rooms && id in t'.rooms then Some(CreateRoom(t'.rooms[id].name, id)) else None
  }

  function NextHub(s: Sys, mv: Move): Hub {
    var a := ActionOf(s, mv);
    if a.None? then s.hub else Step(s.hub, a.value)
  }

  function NextConns(s: Sys, mv: Move): map<ClientId, Conn> {
    match mv
    case Connect(c, _) => s.conns[c := NewConn(s.cfg)]
    case Receive(c, frame, lookups) =>
      var (conn, _, out) := Reading(s, c, frame, lookups);
      if out.Close? then s.conns - {c} else s.conns[c := conn]
    case Tick(c, join) =>
      var conn := Get(s.conns, c, NewConn(s.cfg));
      s.conns[c := if join then conn.(joins := ResetOf(conn.joins)) else conn.(msgs := ResetOf(conn.msgs))]
    case _ => s.conns
  }

  function Opened(p: Pipe, c: ClientId): Pipe {
    p.(sent := p.sent[c := Held(p.sent, c)])
  }

  function Accepted(p: Pipe, c: ClientId, cmd: Command): Pipe {
    p.(sent := p.sent[c := Held(p.sent, c) + [cmd]], pending := p.pending[c := Held(p.pending, c) + [cmd]])
  }

  function Queued(p: Pipe, c: ClientId): Pipe {
    var cmds := Held(p.pending, c);
    if cmds == [] then p
    else p.(pending := p.pending[c := cmds[1..]], own := p.own[c := Held(p.own, c) + [cmds[0]]])
  }

  function Consumed(p: Pipe, c: ClientId): Pipe {
    var cmds := Held(p.own, c);
    if cmds == [] then p
    else p.(own := p.own[c := cmds[1..]], inflight := p.inflight[c := Held(p.inflight, c) + [cmds[0]]])
  }

  function Forwarded(p: Pipe, c: ClientId): Pipe {
    var cmds := Held(p.inflight, c);
    if cmds == [] then p
    else p.(inflight := p.inflight[c := cmds[1..]], shared := p.shared + [Job(c, cmds[0])])
  }

  function Handled(p: Pipe): Pipe {
    if p.shared == [] then p else p.(shared := p.shared[1..], handled := p.handled + [p.shared[0]])
  }

  function NextPipe(s: Sys, mv: Move): Pipe {
    match mv
    case Connect(c, _) => Opened(s.pipe, c)
    case Receive(c, frame, lookups) =>
      var (_, _, out) := Reading(s, c, frame, lookups);
      if out.Enqueue? then Accepted(s.pipe, c, out.cmd) else s.pipe
    case Put(c) => Queued(s.pipe, c)
    case Consume(c) => Consumed(s.pipe, c)
    case Forward(c) => Forwarded(s.pipe, c)
    case HandleNext(_) => Handled(s.pipe)
    case _ => s.pipe
  }

  function NextRooms(s: Sys, mv: Move): Rooms.Tables {
    if mv.RoomDo? then Rooms.Step(s.rooms, mv.op) else s.rooms
  }

  function Next(s: Sys, mv: Move): Sys {
    Sys(s.cfg, NextConns(s, mv), NextPipe(s, mv), NextHub(s, mv), NextRooms(s, mv))
  }

  ghost predicate Start(s: Sys) {
    && Initial(s.hub) && s.conns == map[]
    && s.pipe == Pipe(map[], map[], map[], map[], [], [])
    && Rooms.Inv(s.rooms) && NamesAgree(s.hub.store.roomIds, s.rooms)
  }

  predicate NameAgrees(ids: map<string, int>, t: Rooms.Tables, name: string) {
    name in ids ==> ids[name] in t.rooms && t.rooms[ids[name]].name == name
  }

  predicate IdAgrees(ids: map<string, int>, t: Rooms.Tables, id: int) {
    id in t.rooms ==> t.rooms[id].name in ids && ids[t.rooms[id].name] == id
  }

  /** The rooms that the hub finds by name are the stored ones. */
  ghost predicate NamesAgree(ids: map<string, int>, t: Rooms.Tables) {
    (forall name :: NameAgrees(ids, t, name)) && (forall id :: IdAgrees(ids, t, id))
  }

  function Init(moves: seq<Move>): seq<Move>
    requires moves != []
  {
    moves[..|moves| - 1]
  }

  function Last(moves: seq<Move>): Move
    requires moves != []
  {
    moves[|moves| - 1]
  }

  function Run(init: Sys, moves: seq<Move>): Sys {
    if moves == [] then init else Next(Run(init, Init(moves)), Last(moves))
  }

  ghost predicate IsRun(init: Sys, moves: seq<Move>) {
    if moves == [] then Start(init) else IsRun(init, Init(moves)) && CanMove(Run(init, Init(moves)), Last(moves))
  }

  // ---- The pipeline keeps each client's order ----

  /** The commands of one client in a queue shared by all. */
  function Of(jobs: seq<Job>, c: ClientId): seq<Command> {
    if jobs == [] then []
    else Of(jobs[..|jobs| - 1], c) + if jobs[|jobs| - 1].c == c then [jobs[|jobs| - 1].cmd] else []
  }

  lemma OfAppend(jobs: seq<Job>, j: Job, c: ClientId)
    ensures Of(jobs + [j], c) == Of(jobs, c) + if j.c == c then [j.cmd] else []
  {
    assert (jobs + [j])[..|jobs|] == jobs;
  }

  lemma {:induction false} OfHead(jobs: seq<Job>, c: ClientId)
    requires jobs != []
    ensures Of(jobs, c) == (if jobs[0].c == c then [jobs[0].cmd] else []) + Of(jobs[1..], c)
  {
    if |jobs| > 1 {
      var pre, j := jobs[..|jobs| - 1], jobs[|jobs| - 1];
      OfHead(pre, c);
      assert jobs[1..] == pre[1..] + [j];
      OfAppend(pre[1..], j, c);
    } else {
      assert jobs[..0] == [] && jobs[1..] == [];
    }
  }

  predicate Fifo(p: Pipe, c: ClientId) {
    && Held(p.sent, c)
       == Of(p.handled, c) + Of(p.shared, c) + Held(p.inflight, c) + Held(p.own, c) + Held(p.pending, c)
    && |Held(p.pending, c)| <= 1 && |Held(p.own, c)| <= OWN_CAP && |Held(p.inflight, c)| <= 1
  }

  lemma QueuedFifo(p: Pipe, d: ClientId, c: ClientId)
    requires Fifo(p, c) && |Held(p.own, d)| < OWN_CAP
    ensures Fifo(Queued(p, d), c)
  {}

  lemma ConsumedFifo(p: Pipe, d: ClientId, c: ClientId)
    requires Fifo(p, c) && Held(p.inflight, d) == []
    ensures Fifo(Consumed(p, d), c)
  {}

  lemma ForwardedOrder(h: seq<Command>, jobs: seq<Job>, c: ClientId, cmds: seq<Command>)
    requires cmds != []
    ensures h + Of(jobs + [Job(c, cmds[0])], c) + cmds[1..] == h + Of(jobs, c) + cmds
  {
    OfAppend(jobs, Job(c, cmds[0]), c);
    assert cmds == [cmds[0]] + cmds[1..];
  }

  lemma OthersOrder(jobs: seq<Job>, j: Job, c: ClientId)
    requires j.c != c
    ensures Of(jobs + [j], c) == Of(jobs, c)
  {
    OfAppend(jobs, j, c);
  }

  lemma ForwardedFifo(p: Pipe, d: ClientId, c: ClientId)
    requires Fifo(p, c)
    ensures Fifo(Forwarded(p, d), c)
  {
    var cmds, p' := Held(p.inflight, d), Forwarded(p, d);
    if cmds != [] {
      if d == c {
        ForwardedOrder(Of(p.handled, c), p.shared, c, cmds);
        assert Of(p'.handled, c) + Of(p'.shared, c) + Held(p'.inflight, c)
            == Of(p.handled, c) + Of(p.shared, c) + Held(p.inflight, c);
      } else {
        OthersOrder(p.shared, Job(d, cmds[0]), c);
      }
    }
  }

  lemma HandledOrder(done: seq<Job>, jobs: seq<Job>, c: ClientId)
    requires jobs != []
    ensures Of(done + [jobs[0]], c) + Of(jobs[1..], c) == Of(done, c) + Of(jobs, c)
  {
    OfAppend(done, jobs[0], c);
    OfHead(jobs, c);
  }

  lemma HandledFifo(p: Pipe, c: ClientId)
    requires Fifo(p, c)
    ensures Fifo(Handled(p), c)
  {
    if p.shared != [] {
      HandledOrder(p.handled, p.shared, c);
    }
  }

  lemma FifoKept(s: Sys, mv: Move, c: ClientId)
    requires CanMove(s, mv) && Fifo(s.pipe, c)
    ensures Fifo(NextPipe(s, mv), c)
  {
    match mv {
      case Put(d) => QueuedFifo(s.pipe, d, c);
      case Consume(d) => ConsumedFifo(s.pipe, d, c);
      case Forward(d) => ForwardedFifo(s.pipe, d, c);
      case HandleNext(_) => HandledFifo(s.pipe, c);
      case _ =>
    }
  }

  lemma {:induction false} RunFifo(init: Sys, moves: seq<Move>, c: ClientId)
    requires IsRun(init, moves)
    ensures Fifo(Run(init, moves).pipe, c) && |Run(init, moves).pipe.shared| <= SHARED_CAP
  {
    if moves != [] {
      RunFifo(init, Init(moves), c);
      FifoKept(Run(init, Init(moves)), Last(moves), c);
    }
  }

  lemma FifoPrefix(p: Pipe, c: ClientId)
    requires Fifo(p, c)
    ensures Of(p.handled, c) <= Held(p.sent, c)
  {
    FirstOfFive(Of(p.handled, c), Of(p.shared, c), Held(p.inflight, c), Held(p.own, c), Held(p.pending, c));
  }

  lemma FirstOfFive<T>(a: seq<T>, b: seq<T>, c: seq<T>, d: seq<T>, e: seq<T>)
    ensures a <= a + b + c + d + e
  {}

  /** At every moment of every run, what a client sent is what was handled, then its part of the
      shared queue, then the command its consumer holds, its own queue, and the one waiting to enter
      it; no queue exceeds its capacity. So the handled commands are a prefix of those sent. */
  lemma PipelineIsFifo(init: Sys, moves: seq<Move>, c: ClientId)
    requires IsRun(init, moves)
    ensures var p := Run(init, moves).pipe;
            && Held(p.sent, c)
               == Of(p.handled, c) + Of(p.shared, c) + Held(p.inflight, c) + Held(p.own, c) + Held(p.pending, c)
            && |Held(p.pending, c)| <= 1 && |Held(p.own, c)| <= 8 && |Held(p.inflight, c)| <= 1
            && |p.shared| <= 64
            && Of(p.handled, c) <= Held(p.sent, c)
  {
    RunFifo(init, moves, c);
    FifoPrefix(Run(init, moves).pipe, c);
  }

  /** The hub actions of a run, in order. */
  function Trace(init: Sys, moves: seq<Move>): seq<Action> {
    if moves == [] then []
    else
      var a := ActionOf(Run(init, Init(moves)), Last(moves));
      Trace(init, Init(moves)) + if a.None? then [] else [a.value]
  }

  /** The commands among some hub actions. */
  function Jobs(acts: seq<Action>): seq<Job> {
    if acts == [] then []
    else
      var a := acts[|acts| - 1];
      Jobs(acts[..|acts| - 1]) + if a.Handle? then [Job(a.c, a.cmd)] else []
  }

  /** Only clients whose consumer was started have commands beyond their own queue. */
  ghost predicate OnlySpawned(s: Sys) {
    && (forall c :: Held(s.pipe.inflight, c) != [] ==> c in s.hub.spawned)
    && (forall k :: 0 <= k < |s.pipe.shared| ==> s.pipe.shared[k].c in s.hub.spawned)
  }

  /** What a step of the hub does to consumers, identities and room ids. */
  lemma StepFrame(s: Hub, a: Action)
    ensures s.spawned <= Step(s, a).spawned
    ensures Step(s, a).who == if a.Identify? then s.who[a.c := a.identity] else s.who
    ensures Step(s, a).store.roomIds == if a.CreateRoom? then s.store.roomIds[a.name := a.id] else s.store.roomIds
  {}

  lemma OnlySpawnedKept(s: Sys, mv: Move)
    requires CanMove(s, mv) && OnlySpawned(s)
    ensures OnlySpawned(Next(s, mv))
  {
    if ActionOf(s, mv).Some? {
      StepFrame(s.hub, ActionOf(s, mv).value);
    }
  }

  // ---- The room tables inside the system ----

  ghost predicate RoomsOk(s: Sys) {
    Rooms.Inv(s.rooms) && NamesAgree(s.hub.store.roomIds, s.rooms)
  }

  lemma NewRoomIsUnknown(s: Sys, op: Rooms.Op)
    requires RoomsOk(s) && Rooms.Legal(s.rooms, op)
    ensures var t' := Rooms.Step(s.rooms, op);
            match NewRoom(s.rooms, t')
            case None => t'.rooms == s.rooms.rooms
            case Some(a) =>
              && t'.rooms == s.rooms.rooms[a.id := t'.rooms[a.id]] && t'.rooms[a.id].name == a.name
              && a.id !in s.rooms.rooms && a.name !in s.hub.store.roomIds && a.id !in s.hub.store.roomIds.Values
  {
    var t, t' := s.rooms, Rooms.Step(s.rooms, op);
    Rooms.StepKeeps(t, op);
    Rooms.NextIsNew(t);
    var a := NewRoom(t, t');
    if a.Some? {
      var ids := s.hub.store.roomIds;
      assert NameAgrees(ids, t, a.value.name);
      forall name | name in ids ensures ids[name] != a.value.id {
        assert NameAgrees(ids, t, name);
      }
    }
  }

  lemma RoomsOkKept(s: Sys, mv: Move)
    requires CanMove(s, mv) && RoomsOk(s)
    ensures RoomsOk(Next(s, mv))
  {
    var a, s' := ActionOf(s, mv), Next(s, mv);
    var ids, ids' := s.hub.store.roomIds, s'.hub.store.roomIds;
    if a.Some? {
      StepFrame(s.hub, a.value);
    }
    if mv.RoomDo? {
      Rooms.StepKeeps(s.rooms, mv.op);
      NewRoomIsUnknown(s, mv.op);
      forall name ensures NameAgrees(ids', s'.rooms, name) {
        assert NameAgrees(ids, s.rooms, name);
      }
      forall id ensures IdAgrees(ids', s'.rooms, id) {
        assert IdAgrees(ids, s.rooms, id);
      }
    }
  }

  lemma {:induction false} RunRoomsOk(init: Sys, moves: seq<Move>)
    requires IsRun(init, moves)
    ensures RoomsOk(Run(init, moves))
  {
    if moves != [] {
      RunRoomsOk(init, Init(moves));
      RoomsOkKept(Run(init, Init(moves)), Last(moves));
    }
  }

  /** The room operations of a run, in order. */
  function RoomOps(moves: seq<Move>): seq<Rooms.Op> {
    if moves == [] then []
    else RoomOps(Init(moves)) + if Last(moves).RoomDo? then [Last(moves).op] else []
  }

  lemma RoomsLast(init: Sys, moves: seq<Move>)
    requires IsRun(init, moves) && moves != []
    ensures var t, t', last := Run(init, Init(moves)).rooms, Run(init, moves).rooms, Last(moves);
            if last.RoomDo? then Rooms.Legal(t, last.op) && t' == Rooms.Step(t, last.op) else t' == t
  {}

  /** The room tables make exactly their own runs. */
  lemma {:induction false} SystemRunsTheRooms(init: Sys, moves: seq<Move>)
    requires IsRun(init, moves)
    ensures Rooms.LegalRun(init.rooms, RoomOps(moves))
    ensures Run(init, moves).rooms == Rooms.Exec(init.rooms, RoomOps(moves))
  {
    if moves != [] {
      var ops, last := RoomOps(Init(moves)), Last(moves);
      SystemRunsTheRooms(init, Init(moves));
      RoomsLast(init, moves);
      if last.RoomDo? {
        Rooms.RunAppend(init.rooms, ops, last.op);
        assert RoomOps(moves) == ops + [last.op];
      } else {
        assert RoomOps(moves) == ops;
      }
    }
  }

  // ---- The hub inside the system ----

  lemma HubStepIsEnabled(s: Sys, mv: Move)
    requires CanMove(s, mv) && OnlySpawned(s) && RoomsOk(s) && ActionOf(s, mv).Some?
    ensures Enabled(s.hub, ActionOf(s, mv).value) && HubInvariants.PlainEvents(ActionOf(s, mv).value)
  {
    if mv.RoomDo? {
      NewRoomIsUnknown(s, mv.op);
    }
  }

  lemma HandledBy(s: Sys, mv: Move)
    requires CanMove(s, mv)
    ensures var a := ActionOf(s, mv);
            Next(s, mv).pipe.handled
            == s.pipe.handled + if a.Some? && a.value.Handle? then [Job(a.value.c, a.value.cmd)] else []
  {}

  lemma {:induction false} RunOnlySpawned(init: Sys, moves: seq<Move>)
    requires IsRun(init, moves)
    ensures OnlySpawned(Run(init, moves))
  {
    if moves != [] {
      RunOnlySpawned(init, Init(moves));
      OnlySpawnedKept(Run(init, Init(moves)), Last(moves));
    }
  }

  lemma {:induction false} HandledAreJobs(init: Sys, moves: seq<Move>)
    requires IsRun(init, moves)
    ensures Run(init, moves).pipe.handled == Jobs(Trace(init, moves))
  {
    if moves != [] {
      var s, mv, acts := Run(init, Init(moves)), Last(moves), Trace(init, Init(moves));
      HandledAreJobs(init, Init(moves));
      HandledBy(s, mv);
      if ActionOf(s, mv).Some? {
        JobsAppend(acts, ActionOf(s, mv).value);
      } else {
        assert acts + [] == acts;
      }
    }
  }

  /** Inside the system the hub makes exactly the runs of the hub alone, so all that holds of those
      holds here; and the commands it handles are those that came through the pipeline. */
  lemma {:induction false} SystemRunsTheHub(init: Sys, moves: seq<Move>)
    requires IsRun(init, moves)
    ensures var acts, s := Trace(init, moves), Run(init, moves);
            && Initial(init.hub) && Legal(init.hub, acts) && HubTheorems.PlainRun(acts)
            && s.hub == Exec(init.hub, acts)
            && s.pipe.handled == Jobs(acts)
  {
    HandledAreJobs(init, moves);
    if moves != [] {
      var s, mv, acts := Run(init, Init(moves)), Last(moves), Trace(init, Init(moves));
      SystemRunsTheHub(init, Init(moves));
      RunOnlySpawned(init, Init(moves));
      RunRoomsOk(init, Init(moves));
      if ActionOf(s, mv).Some? {
        HubStepIsEnabled(s, mv);
        HubPanics.ExecAppend(init.hub, acts, ActionOf(s, mv).value);
      } else {
        assert acts + [] == acts;
      }
    }
  }

  lemma JobsAppend(acts: seq<Action>, a: Action)
    ensures Jobs(acts + [a]) == Jobs(acts) + if a.Handle? then [Job(a.c, a.cmd)] else []
  {
    assert (acts + [a])[..|acts|] == acts;
  }
}
