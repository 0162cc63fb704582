/**
 One WebSocket connection: the decision its read loop takes for each inbound
 frame, the hello handshake, and the per-minute rate limiters.
 */
module Transport {
  import opened Common
  import opened HubSpec

  datatype Config = Config(jwtRequired: bool, joinLimit: int, msgLimit: int)

  // ---- The rate limiter ----

  datatype Limiter = Limiter(limit: int, counter: int)

  function NewLimiter(limit: int): Limiter {
    Limiter(if limit <= 0 then 0 else limit, 0)
  }

  /** Every attempt counts, allowed or not; a limit of zero means no limit. */
  function Attempt(l: Limiter): Limiter {
    if l.limit <= 0 then l else l.(counter := l.counter + 1)
  }

  predicate Allows(l: Limiter) {
    l.limit <= 0 || l.counter + 1 <= l.limit
  }

  class RateLimiter {
    var limit: int
    var counter: int

    constructor (limit: int)
      ensures State() == NewLimiter(limit)
    {
      this.limit := if limit <= 0 then 0 else limit;
      counter := 0;
    }

    function State(): Limiter
      reads this
    {
      Limiter(limit, counter)
    }

    method Allow() returns (ok: bool)
      modifies this`counter
      ensures State() == Attempt(old(State())) && ok == Allows(old(State()))
    {
      if limit <= 0 {
        return true;
      }
      counter := counter + 1;
      return counter <= limit;
    }

    /** One tick of the reset loop. */
    method Reset()
      modifies this`counter
      ensures State() == old(State()).(counter := 0)
    {
      counter := 0;
    }
  }

  // ---- Frames ----

  datatype Token = NoToken | InvalidToken | ValidToken(identity: Identity)

  /** An inbound frame after JSON decoding. `Broken`: unreadable, which ends the loop; `Unknown`:
      no such type or missing fields. The user of a hello is the name a guest ends up with, given
      or generated; the `from` of a message request is not read. */
  datatype Frame =
    | Hello(versionOk: bool, token: Token, user: string)
    | Request(cmd: Command)
    | Unknown
    | Broken

  /** What the store says about the room a join names. */
  datatype Access = NoRoom | PublicRoom | MembersOnly(isMember: Option<bool>) | OtherRoom

  datatype Outcome = Enqueue(cmd: Command) | Refuse | Silent | Close

  datatype Conn = Conn(authenticated: bool, joins: Limiter, msgs: Limiter)

  function NewConn(cfg: Config): Conn {
    Conn(!cfg.jwtRequired, NewLimiter(cfg.joinLimit), NewLimiter(cfg.msgLimit))
  }

  /** The hello handshake: the new identity, or none when it is refused. A guest keeps its user id. */
  function HandleHello(cfg: Config, id: Identity, versionOk: bool, token: Token, user: string): Option<Identity> {
    if !versionOk then None
    else if token.ValidToken? then Some(token.identity)
    else if cfg.jwtRequired then None
    else Some(id.(name := user, isGuest := true))
  }

  /** A message carries the name its sender has when it is read. */
  function Signed(cmd: Command, id: Identity): Command {
    if cmd.Say? then cmd.(from := id.name) else cmd
  }

  predicate Empty(cmd: Command) {
    !cmd.Call? && cmd.room == ""
  }

  predicate Admits(access: Access) {
    access.PublicRoom? || access == MembersOnly(Some(true))
  }

  /** The limiters after a request, whether or not it goes through. */
  function Charge(conn: Conn, cmd: Command): Conn {
    match cmd
    case Join(_) => conn.(joins := Attempt(conn.joins))
    case Say(_, _, _) => conn.(msgs := Attempt(conn.msgs))
    case _ => conn
  }

  predicate WithinLimits(conn: Conn, id: Identity, cmd: Command) {
    match cmd
    case Join(_) => Allows(conn.joins)
    case Say(_, _, _) => Allows(conn.msgs)
    case Call(_) => !id.isGuest && id.userId != 0
    case Leave(_) => true
  }

  predicate Accepts(cfg: Config, conn: Conn, id: Identity, cmd: Command, access: Access) {
    && !Empty(cmd)
    && (conn.authenticated || !cfg.jwtRequired)
    && WithinLimits(conn, id, cmd)
    && (cmd.Join? ==> Admits(access))
  }

  /** One iteration of the read loop. */
  function ReadFrame(cfg: Config, conn: Conn, id: Identity, frame: Frame, access: Access): (Conn, Identity, Outcome) {
    match frame
    case Broken => (conn, id, Close)
    case Unknown => (conn, id, Refuse)
    case Hello(versionOk, token, user) =>
      (match HandleHello(cfg, id, versionOk, token, user)
       case Some(id') => (conn.(authenticated := true), id', Silent)
       case None => (conn, id, Refuse))
    case Request(cmd) =>
      if Empty(cmd) then (conn, id, Refuse)
      else (Charge(conn, cmd), id, if Accepts(cfg, conn, id, cmd, access) then Enqueue(Signed(cmd, id)) else Refuse)
  }

  /** The loop's state, updated frame by frame. */
  class Connection {
    const cfg: Config
    var authenticated: bool
    const joinLimiter: RateLimiter
    const msgLimiter: RateLimiter
    var identity: Identity

    constructor (cfg: Config, identity: Identity)
      ensures this.cfg == cfg && this.identity == identity && State() == NewConn(cfg)
      ensures fresh(joinLimiter) && fresh(msgLimiter) && joinLimiter != msgLimiter
    {
      this.cfg, this.identity := cfg, identity;
      authenticated := !cfg.jwtRequired;
      joinLimiter := new RateLimiter(cfg.joinLimit);
      msgLimiter := new RateLimiter(cfg.msgLimit);
    }

    function State(): Conn
      reads this, joinLimiter, msgLimiter
    {
      Conn(authenticated, joinLimiter.State(), msgLimiter.State())
    }

    method Read(frame: Frame, access: Access) returns (out: Outcome)
      requires joinLimiter != msgLimiter
      modifies this, joinLimiter, msgLimiter
      ensures (State(), identity, out) == ReadFrame(cfg, old(State()), old(identity), frame, access)
    {
      match frame
      case Broken => out := Close;
      case Unknown => out := Refuse;
      case Hello(versionOk, token, user) =>
        out := Refuse;
        if versionOk {
          if token.ValidToken? {
            identity := token.identity;
            out, authenticated := Silent, true;
          } else if !cfg.jwtRequired {
            identity := identity.(name := user, isGuest := true);
            out, authenticated := Silent, true;
          }
        }
      case Request(cmd) => out := ReadRequest(cmd, access);
    }

    method ReadRequest(cmd: Command, access: Access) returns (out: Outcome)
      requires joinLimiter != msgLimiter
      modifies joinLimiter, msgLimiter
      ensures (State(), identity, out) == ReadFrame(cfg, old(State()), old(identity), Request(cmd), access)
    {
      out := Refuse;
      if !Empty(cmd) {
        var ok := true;
        match cmd {
          case Join(_) => ok := joinLimiter.Allow();
          case Say(_, _, _) => ok := msgLimiter.Allow();
          case Call(_) => ok := !identity.isGuest && identity.userId != 0;
          case Leave(_) =>
        }
        if !authenticated && cfg.jwtRequired {
          ok := false;
        }
        if ok && cmd.Join? {
          match access {
            case PublicRoom =>
            case MembersOnly(isMember) => ok := isMember == Some(true);
            case NoRoom => ok := false;
            case OtherRoom => ok := false;
          }
        }
        if ok {
          out := Enqueue(Signed(cmd, identity));
        }
      }
    }
  }

  // ---- Rate limits over runs ----

  datatype ConnEvent = Inbound(frame: Frame, access: Access) | ResetJoins | ResetMsgs

  function ResetOf(l: Limiter): Limiter {
    l.(counter := 0)
  }

  function StepConn(cfg: Config, conn: Conn, id: Identity, ev: ConnEvent): (Conn, Identity, Outcome) {
    match ev
    case Inbound(frame, access) => ReadFrame(cfg, conn, id, frame, access)
    case ResetJoins => (conn.(joins := ResetOf(conn.joins)), id, Silent)
    case ResetMsgs => (conn.(msgs := ResetOf(conn.msgs)), id, Silent)
  }

  predicate OfKind(cmd: Command, join: bool) {
    if join then cmd.Join? else cmd.Say?
  }

  predicate IsReset(ev: ConnEvent, join: bool) {
    if join then ev.ResetJoins? else ev.ResetMsgs?
  }

  /** How many joins (or messages) a stretch of a connection's run sends on to the hub. */
  function Passed(cfg: Config, conn: Conn, id: Identity, evs: seq<ConnEvent>, join: bool): nat
    decreases |evs|
  {
    if evs == [] then 0
    else
      var (conn', id', out) := StepConn(cfg, conn, id, evs[0]);
      (if out.Enqueue? && OfKind(out.cmd, join) then 1 else 0) + Passed(cfg, conn', id', evs[1..], join)
  }

  function Resets(evs: seq<ConnEvent>, join: bool): nat {
    if evs == [] then 0
    else (if IsReset(evs[0], join) then 1 else 0) + Resets(evs[1..], join)
  }

  function LimiterOf(conn: Conn, join: bool): Limiter {
    if join then conn.joins else conn.msgs
  }

  function Quota(l: Limiter): nat {
    if l.counter < l.limit then l.limit - l.counter else 0
  }

  lemma StepQuota(cfg: Config, conn: Conn, id: Identity, ev: ConnEvent, join: bool)
    requires LimiterOf(conn, join).limit > 0 && LimiterOf(conn, join).counter >= 0
    ensures var (conn', _, out) := StepConn(cfg, conn, id, ev);
            var l, l' := LimiterOf(conn, join), LimiterOf(conn', join);
            var passed := if out.Enqueue? && OfKind(out.cmd, join) then 1 else 0;
            && l'.limit == l.limit && l'.counter >= 0
            && (!IsReset(ev, join) ==> passed + Quota(l') <= Quota(l))
            && (IsReset(ev, join) ==> passed == 0)
            && Quota(l') <= l.limit
  {}

  lemma {:induction false} PassedWithinQuota(cfg: Config, conn: Conn, id: Identity, evs: seq<ConnEvent>, join: bool)
    requires LimiterOf(conn, join).limit > 0 && LimiterOf(conn, join).counter >= 0
    ensures Passed(cfg, conn, id, evs, join)
            <= Quota(LimiterOf(conn, join)) + Resets(evs, join) * LimiterOf(conn, join).limit
    decreases |evs|
  {
    if evs != [] {
      var (conn', id', out) := StepConn(cfg, conn, id, evs[0]);
      var limit, k := LimiterOf(conn, join).limit, Resets(evs[1..], join);
      StepQuota(cfg, conn, id, evs[0], join);
      PassedWithinQuota(cfg, conn', id', evs[1..], join);
      assert (k + 1) * limit == k * limit + limit;
    }
  }

  /** Any stretch of a connection's run with k resets sends at most (k + 1) * limit commands of a
      limited kind to the hub, for every interleaving of frames and resets. */
  lemma RateIsBounded(cfg: Config, conn: Conn, id: Identity, evs: seq<ConnEvent>, join: bool)
    requires LimiterOf(conn, join).limit > 0 && LimiterOf(conn, join).counter >= 0
    ensures Passed(cfg, conn, id, evs, join) <= (Resets(evs, join) + 1) * LimiterOf(conn, join).limit
  {
    PassedWithinQuota(cfg, conn, id, evs, join);
    var limit, k := LimiterOf(conn, join).limit, Resets(evs, join);
    assert (k + 1) * limit == k * limit + limit;
  }

  /** Attempts that are refused use up quota too: after `limit` attempts nothing passes until a reset. */
  lemma {:induction false} RefusedAttemptsCount(cfg: Config, conn: Conn, id: Identity, evs: seq<ConnEvent>, join: bool)
    requires LimiterOf(conn, join).limit > 0 && LimiterOf(conn, join).counter >= LimiterOf(conn, join).limit
    requires Resets(evs, join) == 0
    ensures Passed(cfg, conn, id, evs, join) == 0
    decreases |evs|
  {
    if evs != [] {
      var (conn', id', _) := StepConn(cfg, conn, id, evs[0]);
      RefusedAttemptsCount(cfg, conn', id', evs[1..], join);
    }
  }
}
