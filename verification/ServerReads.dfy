/**
 What each frame read does, told from the run alone: who is connected, as whom, whether a token was
 presented, how often the client asked since the last reset, and what therefore goes on to the hub.
 */
module ServerReads {
  import opened Common
  import opened HubSpec
  import Rooms
  import opened Transport
  import opened Server
  import opened Admission
  import ServerRates
  import Credentials

  // ---- What the moves of a run say about a client ----

  /** c is connected: it was, and no unreadable frame ended its read loop. */
  function Connected(moves: seq<Move>, c: ClientId): bool {
    if moves == [] then false
    else
      match Last(moves)
      case Connect(d, _) => d == c || Connected(Init(moves), c)
      case Receive(d, Broken, _) => d != c && Connected(Init(moves), c)
      case _ => Connected(Init(moves), c)
  }

  /** Who c is: nobody with a user id at first, then what each accepted hello makes of it. */
  function KnownAs(jwtRequired: bool, moves: seq<Move>, c: ClientId): Identity {
    if moves == [] then Identity(0, "", false)
    else
      var id := KnownAs(jwtRequired, Init(moves), c);
      match Last(moves)
      case Connect(d, name) => if d == c then Identity(0, name, false) else id
      case Receive(d, Hello(versionOk, token, user), _) =>
        if d != c || !versionOk then id
        else if token.ValidToken? then token.identity
        else if jwtRequired then id
        else Identity(id.userId, user, true)
      case _ => id
  }

  /** How many joins (or messages) were read from c since its limiter was last reset, refused ones
      included; a request that names no room is none. */
  function Attempts(moves: seq<Move>, c: ClientId, join: bool): nat {
    if moves == [] then 0
    else
      var n := Attempts(Init(moves), c, join);
      match Last(moves)
      case Connect(d, _) => if d == c then 0 else n
      case Tick(d, kind) => if d == c && kind == join then 0 else n
      case Receive(d, Request(Join(r)), _) => if d == c && join && r != "" then n + 1 else n
      case Receive(d, Request(Say(r, _, _)), _) => if d == c && !join && r != "" then n + 1 else n
      case _ => n
  }

  // ---- The connections agree with it ----

  lemma {:induction false} ConnectedIff(init: Sys, moves: seq<Move>, c: ClientId)
    requires IsRun(init, moves)
    ensures c in Run(init, moves).conns <==> Connected(moves, c)
  {
    if moves != [] {
      ConnectedIff(init, Init(moves), c);
      StaysConnected(Run(init, Init(moves)), Last(moves), c);
    }
  }

  lemma StaysConnected(s: Sys, mv: Move, c: ClientId)
    requires CanMove(s, mv)
    ensures c in Next(s, mv).conns <==>
            (mv.Connect? && mv.c == c) || (c in s.conns && !(mv.Receive? && mv.c == c && mv.frame.Broken?))
  {}

  /** What one move makes of a client's identity. */
  lemma IdentityAfter(s: Sys, mv: Move, c: ClientId)
    requires CanMove(s, mv)
    ensures var id, id' := Who(s.hub, c), Who(Next(s, mv).hub, c);
            match mv
            case Connect(d, name) => id' == if d == c then Identity(0, name, false) else id
            case Receive(d, Hello(true, ValidToken(shown), _), _) => id' == if d == c then shown else id
            case Receive(d, Hello(true, _, user), _) =>
              id' == if d == c && !s.cfg.jwtRequired then Identity(id.userId, user, true) else id
            case _ => id' == id
  {
    if ActionOf(s, mv).Some? {
      WhoAfter(s.hub, ActionOf(s, mv).value, c);
    }
  }

  /** A client enters the books by connecting. */
  lemma FirstSent(init: Sys, moves: seq<Move>, c: ClientId)
    requires IsRun(init, moves) && moves != []
    requires c in Run(init, moves).pipe.sent && c !in Run(init, Init(moves)).pipe.sent
    ensures Last(moves).Connect? && Last(moves).c == c
  {
    Credentials.ReaderConnected(init, moves);
  }

  /** In every run, each client is who its connection and its accepted hellos make it. */
  lemma {:induction false} IdentityIs(init: Sys, moves: seq<Move>, c: ClientId)
    requires IsRun(init, moves) && c in Run(init, moves).pipe.sent
    ensures Who(Run(init, moves).hub, c) == KnownAs(init.cfg.jwtRequired, moves, c)
  {
    if moves != [] {
      var pre := Init(moves);
      CfgKept(init, pre);
      IdentityAfter(Run(init, pre), Last(moves), c);
      if c in Run(init, pre).pipe.sent {
        IdentityIs(init, pre, c);
      } else {
        FirstSent(init, moves, c);
      }
    }
  }

  /** A token for some identity was presented and validated on c's connection. */
  ghost predicate ShowedToken(moves: seq<Move>, c: ClientId) {
    exists id :: Vouched(moves, c, id)
  }

  lemma {:induction false} ShowedIsSent(init: Sys, moves: seq<Move>, c: ClientId)
    requires IsRun(init, moves) && ShowedToken(moves, c)
    ensures c in Run(init, moves).pipe.sent
  {
    var id :| Vouched(moves, c, id);
    var k :| 0 <= k < |moves| && Vouches(moves[k], c, id);
    var pre := Init(moves);
    if k == |moves| - 1 {
      Credentials.ReaderConnected(init, moves);
    } else {
      assert Vouches(pre[k], c, id);
      assert Vouched(pre, c, id);
      ShowedIsSent(init, pre, c);
    }
    Credentials.ConnAfter(Run(init, pre), Last(moves), c);
  }

  /** What one move makes of a connection's standing. */
  lemma StandingAfter(s: Sys, mv: Move, c: ClientId)
    requires CanMove(s, mv) && c in Next(s, mv).conns
    ensures Next(s, mv).conns[c].authenticated ==
            if mv.Connect? && mv.c == c then !s.cfg.jwtRequired
            else
              || (c in s.conns && s.conns[c].authenticated)
              || (&& mv.Receive? && mv.c == c && mv.frame.Hello? && mv.frame.versionOk
                  && (mv.frame.token.ValidToken? || !s.cfg.jwtRequired))
  {}

  lemma ShowedLast(moves: seq<Move>, c: ClientId)
    requires moves != []
    ensures ShowedToken(moves, c) <==>
            || ShowedToken(Init(moves), c)
            || exists id :: Vouches(Last(moves), c, id)
  {
    var pre := Init(moves);
    if id :| Vouched(moves, c, id) {
      var k :| 0 <= k < |moves| && Vouches(moves[k], c, id);
      if k < |pre| {
        assert Vouches(pre[k], c, id);
        assert Vouched(pre, c, id);
      } else {
        assert Vouches(Last(moves), c, id);
      }
    }
    if id :| Vouched(pre, c, id) {
      VouchedStays(moves, c, id);
    }
    if id :| Vouches(Last(moves), c, id) {
      assert Vouches(moves[|moves| - 1], c, id);
      assert Vouched(moves, c, id);
    }
  }

  /** In every run a connection counts as authenticated exactly if none needs to be, or a valid
      token was presented on it. */
  lemma {:induction false} AuthenticatedIff(init: Sys, moves: seq<Move>, c: ClientId)
    requires IsRun(init, moves) && c in Run(init, moves).conns
    ensures Run(init, moves).conns[c].authenticated <==> !init.cfg.jwtRequired || ShowedToken(moves, c)
  {
    if moves != [] {
      var pre := Init(moves);
      var s, mv := Run(init, pre), Last(moves);
      CfgKept(init, pre);
      StandingAfter(s, mv, c);
      StaysConnected(s, mv, c);
      ShowedLast(moves, c);
      if mv.Connect? && mv.c == c {
        if ShowedToken(pre, c) {
          ShowedIsSent(init, pre, c);
          assert false;
        }
      } else {
        AuthenticatedIff(init, pre, c);
        if Hails(mv, c) {
          assert Vouches(mv, c, mv.frame.token.identity);
        }
      }
    }
  }

  predicate Hails(mv: Move, c: ClientId) {
    mv.Receive? && mv.c == c && mv.frame.Hello? && mv.frame.versionOk && mv.frame.token.ValidToken?
  }

  /** What one move makes of a limiter. */
  lemma CounterAfter(s: Sys, mv: Move, c: ClientId, join: bool)
    requires CanMove(s, mv) && c in Next(s, mv).conns && ServerRates.LimitsOk(s, c)
    requires ServerRates.LimitOf(s.cfg, join) > 0
    ensures var n' := LimiterOf(Next(s, mv).conns[c], join).counter;
            if mv == Tick(c, join) || (mv.Connect? && mv.c == c) then n' == 0
            else c in s.conns && n' == LimiterOf(s.conns[c], join).counter + if Asks(mv, c, join) then 1 else 0
  {}

  predicate Asks(mv: Move, c: ClientId, join: bool) {
    && mv.Receive? && mv.c == c && mv.frame.Request? && OfKind(mv.frame.cmd, join) && mv.frame.cmd.room != ""
  }

  /** A limiter's counter is the number of attempts since its last reset. */
  lemma {:induction false} CounterIs(init: Sys, moves: seq<Move>, c: ClientId, join: bool)
    requires IsRun(init, moves) && c in Run(init, moves).conns && ServerRates.LimitOf(init.cfg, join) > 0
    ensures LimiterOf(Run(init, moves).conns[c], join).counter == Attempts(moves, c, join)
  {
    if moves != [] {
      var pre := Init(moves);
      CfgKept(init, pre);
      ServerRates.LimitsAfter(init, pre, c);
      CounterAfter(Run(init, pre), Last(moves), c, join);
      if c in Run(init, pre).conns {
        CounterIs(init, pre, c, join);
      }
    }
  }

  // ---- What a frame does ----

  /** No limit is set, or fewer attempts than that were read since the last reset. */
  predicate HasQuota(limit: int, moves: seq<Move>, c: ClientId, join: bool) {
    limit <= 0 || Attempts(moves, c, join) < limit
  }

  lemma QuotaIff(init: Sys, moves: seq<Move>, c: ClientId, join: bool, limit: int)
    requires IsRun(init, moves) && c in Run(init, moves).conns
    requires limit == if join then init.cfg.joinLimit else init.cfg.msgLimit
    ensures Allows(LimiterOf(Run(init, moves).conns[c], join)) <==> HasQuota(limit, moves, c, join)
  {
    ServerRates.LimitsAfter(init, moves, c);
    assert LimiterOf(Run(init, moves).conns[c], join).limit == ServerRates.LimitOf(init.cfg, join);
    if limit > 0 {
      CounterIs(init, moves, c, join);
    }
  }

  /** The store lets the user into the room, and the reads that tell so work; a public room needs no
      look at the members. */
  predicate Enterable(s: Sys, user: int, r: string, lookups: Lookups) {
    && lookups.room && Permits(s, user, r)
    && (lookups.member || KindOf(s.rooms, s.hub.store.roomIds[r]).Public?)
  }

  lemma AdmitsIff(s: Sys, user: int, r: string, lookups: Lookups)
    ensures Admits(AccessTo(s, user, r, lookups)) <==> Enterable(s, user, r, lookups)
  {}

  /** A request of c read after these moves goes on to the hub. */
  ghost predicate GoesOn(init: Sys, moves: seq<Move>, c: ClientId, cmd: Command, lookups: Lookups) {
    var s, id := Run(init, moves), KnownAs(init.cfg.jwtRequired, moves, c);
    && (!init.cfg.jwtRequired || ShowedToken(moves, c))
    && match cmd
       case Join(r) =>
         r != "" && HasQuota(init.cfg.joinLimit, moves, c, true) && Enterable(s, id.userId, r, lookups)
       case Say(r, _, _) => r != "" && HasQuota(init.cfg.msgLimit, moves, c, false)
       case Leave(r) => r != ""
       case Call(_) => !id.isGuest && id.userId != 0
  }

  /** A request as it goes on: a message carries the name its sender has by then. */
  function AsSent(cmd: Command, id: Identity): Command {
    match cmd
    case Say(r, _, text) => Say(r, id.name, text)
    case Join(r) => Join(r)
    case Leave(r) => Leave(r)
    case Call(request) => Call(request)
  }

  /** The tail of what c sent: one command more, or none. */
  ghost predicate SentMore(s: Sys, s': Sys, c: ClientId, more: seq<Command>) {
    && Held(s'.pipe.sent, c) == Held(s.pipe.sent, c) + more
    && forall d :: d != c ==> Held(s'.pipe.sent, d) == Held(s.pipe.sent, d)
  }

  lemma ReadDecides(s: Sys, c: ClientId, cmd: Command, lookups: Lookups)
    requires CanMove(s, Receive(c, Request(cmd), lookups))
    ensures var id, s' := Who(s.hub, c), Next(s, Receive(c, Request(cmd), lookups));
            var access := if cmd.Join? then AccessTo(s, id.userId, cmd.room, lookups) else NoRoom;
            && s'.hub == s.hub && s'.rooms == s.rooms
            && SentMore(s, s', c, if Accepts(s.cfg, s.conns[c], id, cmd, access) then [AsSent(cmd, id)] else [])
  {
    var id, s' := Who(s.hub, c), Next(s, Receive(c, Request(cmd), lookups));
    var access := if cmd.Join? then AccessTo(s, id.userId, cmd.room, lookups) else NoRoom;
    var sent := Held(s.pipe.sent, c);
    assert sent + [] == sent;
    if Accepts(s.cfg, s.conns[c], id, cmd, access) {
      assert Held(s'.pipe.sent, c) == sent + [AsSent(cmd, id)];
    }
  }

  lemma AcceptsIff(init: Sys, moves: seq<Move>, c: ClientId, cmd: Command, lookups: Lookups)
    requires IsRun(init, moves) && c in Run(init, moves).conns
    ensures var s := Run(init, moves);
            var id := Who(s.hub, c);
            var access := if cmd.Join? then AccessTo(s, id.userId, cmd.room, lookups) else NoRoom;
            Accepts(s.cfg, s.conns[c], id, cmd, access) <==> GoesOn(init, moves, c, cmd, lookups)
  {
    var s := Run(init, moves);
    CfgKept(init, moves);
    Credentials.ConnsAreSent(init, moves, c);
    IdentityIs(init, moves, c);
    AuthenticatedIff(init, moves, c);
    match cmd {
      case Join(r) =>
        QuotaIff(init, moves, c, true, init.cfg.joinLimit);
        AdmitsIff(s, Who(s.hub, c).userId, r, lookups);
      case Say(_, _, _) => QuotaIff(init, moves, c, false, init.cfg.msgLimit);
      case Leave(_) =>
      case Call(_) =>
    }
  }

  /** In every run, a request that is read goes on to the hub exactly if it names a room or is a call;
      a token was presented where one is needed; a join or message has quota left; the store lets the
      joining user in, as far as it can be read; and a caller is a user and no guest. What goes on is
      the request itself, a message under its sender's present name. Nobody else sends anything. */
  lemma RequestGoesOnIff(init: Sys, moves: seq<Move>, c: ClientId, cmd: Command, lookups: Lookups)
    requires moves != [] && IsRun(init, moves) && Last(moves) == Receive(c, Request(cmd), lookups)
    ensures var pre, s, s' := Init(moves), Run(init, Init(moves)), Run(init, moves);
            var sent := AsSent(cmd, KnownAs(init.cfg.jwtRequired, pre, c));
            && SentMore(s, s', c, if GoesOn(init, pre, c, cmd, lookups) then [sent] else [])
            && s'.hub == s.hub && s'.rooms == s.rooms
  {
    var pre := Init(moves);
    CfgKept(init, pre);
    ReadDecides(Run(init, pre), c, cmd, lookups);
    AcceptsIff(init, pre, c, cmd, lookups);
    Credentials.ConnsAreSent(init, pre, c);
    IdentityIs(init, pre, c);
  }

  /** Only a request read from c adds to what c sent. */
  lemma OthersSendNothing(s: Sys, mv: Move, c: ClientId)
    requires CanMove(s, mv) && !(mv.Receive? && mv.c == c && mv.frame.Request?)
    ensures Held(Next(s, mv).pipe.sent, c) == Held(s.pipe.sent, c)
  {}

  /** The requests of c that go on, in the order in which they were read. */
  ghost function Passing(init: Sys, moves: seq<Move>, c: ClientId): seq<Command> {
    if moves == [] then []
    else
      var pre := Init(moves);
      match Last(moves)
      case Receive(d, Request(cmd), lookups) =>
        if d == c && GoesOn(init, pre, c, cmd, lookups)
        then Passing(init, pre, c) + [AsSent(cmd, KnownAs(init.cfg.jwtRequired, pre, c))]
        else Passing(init, pre, c)
      case _ => Passing(init, pre, c)
  }

  lemma {:induction false} SentIsPassing(init: Sys, moves: seq<Move>, c: ClientId)
    requires IsRun(init, moves)
    ensures Held(Run(init, moves).pipe.sent, c) == Passing(init, moves, c)
  {
    if moves != [] {
      var s, mv := Run(init, Init(moves)), Last(moves);
      SentIsPassing(init, Init(moves), c);
      if mv.Receive? && mv.c == c && mv.frame.Request? {
        RequestGoesOnIff(init, moves, c, mv.frame.cmd, mv.lookups);
      } else {
        OthersSendNothing(s, mv, c);
      }
    }
  }

  /** In every run, the requests of a client that go on are handled in the order in which they were
      read, each once: they are those handled so far, then those still on the way, of which the shared
      queue holds at most 64, the consumer one, the client's own queue 8 and the read loop one. */
  lemma EveryRequestArrivesInOrder(init: Sys, moves: seq<Move>, c: ClientId)
    requires IsRun(init, moves)
    ensures var p := Run(init, moves).pipe;
            && Passing(init, moves, c)
               == Of(p.handled, c) + Of(p.shared, c) + Held(p.inflight, c) + Held(p.own, c) + Held(p.pending, c)
            && |p.shared| <= 64 && |Held(p.inflight, c)| <= 1 && |Held(p.own, c)| <= 8 && |Held(p.pending, c)| <= 1
  {
    SentIsPassing(init, moves, c);
    PipelineIsFifo(init, moves, c);
  }
}
