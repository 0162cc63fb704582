/**
 The whole backend: the server of connections, queues, rooms and hub, together
 with the call and friend services that its call handlers and REST endpoints use.
 */
module Backend {
  import opened Common
  import opened HubSpec
  import HubInvariants
  import opened Server
  import Admission
  import Credentials
  import Friends
  import Calls
  import CallHandlers
  import Social

  datatype State = State(sys: Sys, db: Calls.Db)

  /** A move of the server other than handling a call command; the handling of one, with the service's
      replies; or an operation of a service. */
  datatype Happening =
    | Serve(mv: Move)
    | Answer(env: Env, reply: CallHandlers.Reply)
    | CallDo(call: Calls.Op)
    | FriendDo(op: Friends.Op)
    | SetUsers(users: set<int>, friendsOnly: set<int>)

  /** The call tables, with the room tables as they are now. */
  function Known(s: State): Calls.Db {
    s.db.(world := s.db.world.(tables := s.sys.rooms))
  }

  predicate CallIsNext(s: Sys) {
    s.pipe.shared != [] && s.pipe.shared[0].cmd.Call?
  }

  /** A script without the pauses. */
  function Sends(script: seq<Effect>): seq<Effect> {
    if script == [] then []
    else (if script[0].Pause? then [] else [script[0]]) + Sends(script[1..])
  }

  ghost function Replied(s: State, reply: CallHandlers.Reply): (Calls.Db, seq<Effect>)
    requires CallIsNext(s.sys)
  {
    var job := s.sys.pipe.shared[0];
    CallHandlers.Respond(Known(s), Who(s.sys.hub, job.c), job.cmd.request, reply)
  }

  ghost predicate CanDo(s: State, e: Happening) {
    match e
    case Serve(mv) => CanMove(s.sys, mv) && !(mv.HandleNext? && CallIsNext(s.sys))
    case Answer(env, reply) =>
      && CallIsNext(s.sys) && CanMove(s.sys, HandleNext(env))
      && CallHandlers.Possible(Known(s), s.sys.pipe.shared[0].cmd.request, reply)
      && Sends(env.script) == Replied(s, reply).1
    case CallDo(op) => !op.Change? && Calls.Legal(Known(s), op)
    case FriendDo(_) => true
    case SetUsers(_, _) => true
  }

  ghost function Do(s: State, e: Happening): State {
    match e
    case Serve(mv) => s.(sys := Next(s.sys, mv))
    case Answer(env, reply) =>
      State(Next(s.sys, HandleNext(env)), if CallIsNext(s.sys) then Replied(s, reply).0 else s.db)
    case CallDo(op) => s.(db := Calls.Step(Known(s), op))
    case FriendDo(op) => s.(db := s.db.(world := s.db.world.(friends := Friends.Step(s.db.world.friends, op))))
    case SetUsers(users, friendsOnly) =>
      s.(db := s.db.(world := s.db.world.(users := users, friendsOnly := friendsOnly)))
  }

  function Pre(es: seq<Happening>): seq<Happening>
    requires es != []
  {
    es[..|es| - 1]
  }

  ghost function After(init: State, es: seq<Happening>): State {
    if es == [] then init else Do(After(init, Pre(es)), es[|es| - 1])
  }

  /** A run since the server was started; the tables may hold anything by then. */
  ghost predicate IsHistory(init: State, es: seq<Happening>) {
    if es == [] then Start(init.sys)
    else IsHistory(init, Pre(es)) && CanDo(After(init, Pre(es)), es[|es| - 1])
  }

  // ---- The server inside the backend ----

  function MoveOf(e: Happening): seq<Move> {
    match e
    case Serve(mv) => [mv]
    case Answer(env, _) => [HandleNext(env)]
    case _ => []
  }

  function Moves(es: seq<Happening>): seq<Move> {
    if es == [] then [] else Moves(Pre(es)) + MoveOf(es[|es| - 1])
  }

  lemma MovesLast(init: Sys, moves: seq<Move>, mv: Move)
    ensures Run(init, moves + [mv]) == Next(Run(init, moves), mv)
    ensures IsRun(init, moves + [mv]) <==> IsRun(init, moves) && CanMove(Run(init, moves), mv)
    ensures Credentials.HonestRun(init, moves + [mv])
            <==> Credentials.HonestRun(init, moves) && Credentials.HonestMove(Run(init, moves), mv)
  {
    assert Init(moves + [mv]) == moves;
  }

  lemma DoMoves(s: State, e: Happening)
    ensures Do(s, e).sys == if MoveOf(e) == [] then s.sys else Next(s.sys, MoveOf(e)[0])
    ensures CanDo(s, e) && MoveOf(e) != [] ==> CanMove(s.sys, MoveOf(e)[0])
  {}

  /** Inside the backend the server makes runs of the server, so all that holds of those holds here; and
      its call handlers send credentials only to the user they are for. */
  lemma {:induction false} ServesHonestly(init: State, es: seq<Happening>)
    requires IsHistory(init, es)
    ensures IsRun(init.sys, Moves(es)) && Credentials.HonestRun(init.sys, Moves(es))
    ensures After(init, es).sys == Run(init.sys, Moves(es))
  {
    if es != [] {
      var s, e := After(init, Pre(es)), es[|es| - 1];
      ServesHonestly(init, Pre(es));
      DoMoves(s, e);
      if MoveOf(e) == [] {
        assert Moves(es) == Moves(Pre(es));
      } else {
        assert Moves(es) == Moves(Pre(es)) + [MoveOf(e)[0]];
        MovesLast(init.sys, Moves(Pre(es)), MoveOf(e)[0]);
        HonestLast(s, e);
      }
    }
  }

  lemma HonestLast(s: State, e: Happening)
    requires CanDo(s, e) && MoveOf(e) != []
    ensures Credentials.HonestMove(s.sys, MoveOf(e)[0])
  {
    if e.Answer? {
      var job := s.sys.pipe.shared[0];
      var who := Who(s.sys.hub, job.c);
      CallHandlers.RespondIsHonest(Known(s), who, job.cmd.request, e.reply);
      CallHandlers.NoCredentialsForNobody(Known(s), who, job.cmd.request, e.reply);
      SendsHonest(who.userId, e.env.script);
    }
  }

  lemma {:induction false} SendsHonest(u: int, script: seq<Effect>)
    requires forall k :: 0 <= k < |Sends(script)| ==> Credentials.HonestTo(u, Sends(script)[k])
    ensures forall k :: 0 <= k < |script| ==> Credentials.HonestTo(u, script[k])
  {
    if script != [] {
      var rest := Sends(script[1..]);
      forall k | 0 <= k < |rest| ensures Credentials.HonestTo(u, rest[k]) {
        assert rest[k] == Sends(script)[if script[0].Pause? then k else k + 1];
      }
      SendsHonest(u, script[1..]);
      assert script[0].Pause? || script[0] == Sends(script)[0];
      forall k | 0 <= k < |script| ensures Credentials.HonestTo(u, script[k]) {
        assert k > 0 ==> script[k] == script[1..][k - 1];
      }
    }
  }

  /** In every run of the backend, call credentials of a user were queued only to clients on whose
      connection a token of that very user was validated. */
  lemma CredentialsAreForTheirUser(init: State, es: seq<Happening>, c: ClientId, x: Item)
    requires IsHistory(init, es) && x in Feed(After(init, es).sys.hub.logs, c) && x.Private? && x.event.JoinInfo?
    ensures Credentials.VouchedFor(Moves(es), c, x.event.holder)
  {
    ServesHonestly(init, es);
    assert Credentials.CredItem(x, x.event.holder);
    Credentials.CredentialsReachTheirUser(init.sys, Moves(es), c, x.event.holder);
  }

  // ---- The services inside the backend ----

  /** An event as operations of the two services. */
  ghost function Deeds(s: State, e: Happening): seq<Social.Deed> {
    match e
    case Serve(_) => []
    case Answer(_, reply) =>
      if CallIsNext(s.sys)
      then
        var job := s.sys.pipe.shared[0];
        HandlerDeeds(Known(s), Who(s.sys.hub, job.c), job.cmd.request, reply)
      else []
    case CallDo(op) => [Social.Ring(Calls.Change(Known(s).world))] + [Social.Ring(op)]
    case FriendDo(op) => [Social.Befriend(op)]
    case SetUsers(_, _) => [Social.Ring(Calls.Change(Do(s, e).db.world))]
  }

  function Rings(ops: seq<Calls.Op>): seq<Social.Deed> {
    if ops == [] then [] else Rings(ops[..|ops| - 1]) + [Social.Ring(ops[|ops| - 1])]
  }

  ghost function AllDeeds(init: State, es: seq<Happening>): seq<Social.Deed> {
    if es == [] then [] else AllDeeds(init, Pre(es)) + Deeds(After(init, Pre(es)), es[|es| - 1])
  }

  lemma {:induction false} RingsRun(w: Calls.World, pre: seq<Social.Deed>, ops: seq<Calls.Op>)
    requires Social.IsRun(w, pre) && Calls.LegalRun(Social.Run(w, pre), ops)
    requires forall k :: 0 <= k < |ops| ==> !ops[k].Change?
    ensures Social.IsRun(w, pre + Rings(ops))
    ensures Social.Run(w, pre + Rings(ops)) == Calls.Exec(Social.Run(w, pre), ops)
  {
    if ops == [] {
      assert pre + [] == pre;
    } else {
      var ops1, op := ops[..|ops| - 1], ops[|ops| - 1];
      RingsRun(w, pre, ops1);
      Social.RunAppend(w, pre + Rings(ops1), Social.Ring(op));
      assert pre + Rings(ops) == pre + Rings(ops1) + [Social.Ring(op)];
    }
  }

  lemma HandlerRuns(
    w: Calls.World, pre: seq<Social.Deed>, known: Calls.Db, who: Identity, req: CallRequest, reply: CallHandlers.Reply)
    requires Social.IsRun(w, pre) && Social.Run(w, pre) == known && CallHandlers.Possible(known, req, reply)
    ensures var deeds := Rings(CallHandlers.OpsOf(known, who, req, reply));
            && Social.IsRun(w, pre + deeds)
            && Social.Run(w, pre + deeds) == CallHandlers.Respond(known, who, req, reply).0
  {
    CallHandlers.RespondIsRun(known, who, req, reply);
    CallHandlers.OpsChangeNothingElse(known, who, req, reply);
    RingsRun(w, pre, CallHandlers.OpsOf(known, who, req, reply));
  }

  lemma ChangeRuns(w: Calls.World, pre: seq<Social.Deed>, s: State)
    requires Social.IsRun(w, pre) && Social.Run(w, pre) == s.db
    ensures var change := Social.Ring(Calls.Change(Known(s).world));
            Social.IsRun(w, pre + [change]) && Social.Run(w, pre + [change]) == Known(s)
  {
    Social.RunAppend(w, pre, Social.Ring(Calls.Change(Known(s).world)));
  }

  /** The world brought up to date, then a handler's operations. */
  ghost function HandlerDeeds(known: Calls.Db, who: Identity, req: CallRequest, reply: CallHandlers.Reply)
    : seq<Social.Deed>
  {
    [Social.Ring(Calls.Change(known.world))] + Rings(CallHandlers.OpsOf(known, who, req, reply))
  }

  lemma UpdatedHandlerRuns(
    w: Calls.World, pre: seq<Social.Deed>, known: Calls.Db, who: Identity, req: CallRequest, reply: CallHandlers.Reply)
    requires var change := [Social.Ring(Calls.Change(known.world))];
             Social.IsRun(w, pre + change) && Social.Run(w, pre + change) == known
    requires CallHandlers.Possible(known, req, reply)
    ensures var deeds := HandlerDeeds(known, who, req, reply);
            && Social.IsRun(w, pre + deeds)
            && Social.Run(w, pre + deeds) == CallHandlers.Respond(known, who, req, reply).0
  {
    var change, rest := [Social.Ring(Calls.Change(known.world))], Rings(CallHandlers.OpsOf(known, who, req, reply));
    Regroup(pre, change, rest);
    HandlerRuns(w, pre + change, known, who, req, reply);
  }

  lemma Regroup<T>(a: seq<T>, b: seq<T>, c: seq<T>)
    ensures a + (b + c) == (a + b) + c
  {}

  lemma AnswerIs(s: State, env: Env, reply: CallHandlers.Reply)
    requires CanDo(s, Answer(env, reply))
    ensures var e, job := Answer(env, reply), s.sys.pipe.shared[0];
            var who, req := Who(s.sys.hub, job.c), job.cmd.request;
            && CallHandlers.Possible(Known(s), req, reply)
            && Deeds(s, e) == HandlerDeeds(Known(s), who, req, reply)
            && Do(s, e).db == CallHandlers.Respond(Known(s), who, req, reply).0
  {}

  lemma AnswerRuns(w: Calls.World, pre: seq<Social.Deed>, s: State, env: Env, reply: CallHandlers.Reply)
    requires Social.IsRun(w, pre) && Social.Run(w, pre) == s.db && CanDo(s, Answer(env, reply))
    ensures var e := Answer(env, reply);
            Social.IsRun(w, pre + Deeds(s, e)) && Social.Run(w, pre + Deeds(s, e)) == Do(s, e).db
  {
    AnswerIs(s, env, reply);
    ChangeRuns(w, pre, s);
    var job := s.sys.pipe.shared[0];
    UpdatedHandlerRuns(w, pre, Known(s), Who(s.sys.hub, job.c), job.cmd.request, reply);
  }

  lemma CallDoRuns(w: Calls.World, pre: seq<Social.Deed>, s: State, op: Calls.Op)
    requires Social.IsRun(w, pre) && Social.Run(w, pre) == s.db && CanDo(s, CallDo(op))
    ensures var e := CallDo(op);
            Social.IsRun(w, pre + Deeds(s, e)) && Social.Run(w, pre + Deeds(s, e)) == Do(s, e).db
  {
    var change := Social.Ring(Calls.Change(Known(s).world));
    ChangeRuns(w, pre, s);
    Social.RunAppend(w, pre + [change], Social.Ring(op));
    assert pre + ([change] + [Social.Ring(op)]) == pre + [change] + [Social.Ring(op)];
  }

  lemma DeedsRun(w: Calls.World, pre: seq<Social.Deed>, s: State, e: Happening)
    requires Social.IsRun(w, pre) && Social.Run(w, pre) == s.db && CanDo(s, e)
    ensures Social.IsRun(w, pre + Deeds(s, e)) && Social.Run(w, pre + Deeds(s, e)) == Do(s, e).db
  {
    match e {
      case Serve(_) => assert pre + [] == pre;
      case Answer(env, reply) => AnswerRuns(w, pre, s, env, reply);
      case CallDo(op) => CallDoRuns(w, pre, s, op);
      case FriendDo(op) => Social.RunAppend(w, pre, Social.Befriend(op));
      case SetUsers(_, _) => Social.RunAppend(w, pre, Social.Ring(Calls.Change(Do(s, e).db.world)));
    }
  }

  /** Inside the backend the two services carry on their joint runs, from whatever run `past` led to the
      tables at the start. So all that holds of those holds here: of calls, friendships and consent. */
  lemma {:induction false} RunsTheServices(
    w: Calls.World, past: seq<Social.Deed>, init: State, es: seq<Happening>)
    requires Social.IsRun(w, past) && Social.Run(w, past) == init.db && IsHistory(init, es)
    ensures Social.IsRun(w, past + AllDeeds(init, es))
    ensures Social.Run(w, past + AllDeeds(init, es)) == After(init, es).db
  {
    if es == [] {
      assert past + [] == past;
    } else {
      var deeds, s, e := AllDeeds(init, Pre(es)), After(init, Pre(es)), es[|es| - 1];
      RunsTheServices(w, past, init, Pre(es));
      DeedsRun(w, past + deeds, s, e);
      Regroup(past, deeds, Deeds(s, e));
    }
  }

  /** For instance: every direct call in the tables was stored by one step, and if its callee took calls
      from friends only at that moment, one of the two had asked and the other had accepted. */
  lemma CallsHadConsent(w: Calls.World, past: seq<Social.Deed>, init: State, es: seq<Happening>, id: string)
    requires Social.IsRun(w, past) && Social.Run(w, past) == init.db && IsHistory(init, es)
    requires id in After(init, es).db.calls && After(init, es).db.calls[id].kind.Direct?
    ensures var deeds := past + AllDeeds(init, es);
            exists k: nat :: Social.StoresAt(w, deeds, k, id) && Social.HadConsent(w, deeds, k)
  {
    RunsTheServices(w, past, init, es);
    Social.StoredCallsHadConsent(w, past + AllDeeds(init, es), id);
  }
}
