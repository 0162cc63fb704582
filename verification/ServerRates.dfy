/** Rate limits in the whole server: what reaches the pipeline between two points of a run. */
module ServerRates {
  import opened Common
  import opened HubSpec
  import opened Transport
  import opened Server

  /** How many joins (or messages) are among some commands. */
  function Count(cmds: seq<Command>, join: bool): nat {
    if cmds == [] then 0
    else Count(cmds[..|cmds| - 1], join) + if OfKind(cmds[|cmds| - 1], join) then 1 else 0
  }

  lemma CountAppend(cmds: seq<Command>, cmd: Command, join: bool)
    ensures Count(cmds + [cmd], join) == Count(cmds, join) + if OfKind(cmd, join) then 1 else 0
  {
    assert (cmds + [cmd])[..|cmds|] == cmds;
  }

  predicate IsTick(mv: Move, c: ClientId, join: bool) {
    mv == Tick(c, join)
  }

  /** How often c's limiter was reset. */
  function Ticks(moves: seq<Move>, c: ClientId, join: bool): nat {
    if moves == [] then 0 else Ticks(Init(moves), c, join) + if IsTick(Last(moves), c, join) then 1 else 0
  }

  function LimitOf(cfg: Config, join: bool): int {
    LimiterOf(NewConn(cfg), join).limit
  }

  /** The limiters of c's connection carry the configured limits. */
  predicate LimitsOk(s: Sys, c: ClientId) {
    c in s.conns ==>
      forall join ::
        LimiterOf(s.conns[c], join).limit == LimitOf(s.cfg, join) && LimiterOf(s.conns[c], join).counter >= 0
  }

  function QuotaLeft(s: Sys, c: ClientId, join: bool): nat {
    if c in s.conns then Quota(LimiterOf(s.conns[c], join)) else 0
  }

  /** How many joins (or messages) of c have entered the pipeline so far. */
  function SentBy(s: Sys, c: ClientId, join: bool): nat {
    Count(Held(s.pipe.sent, c), join)
  }

  /** What a frame does to the connection and to what is sent, as one event of the connection. */
  lemma ReceiveIs(s: Sys, c: ClientId, frame: Frame, lookups: Lookups)
    requires c in s.conns
    ensures exists access :: ReadsAs(s, c, frame, lookups, access)
  {
    var id := Who(s.hub, c);
    var access :=
      if frame.Request? && frame.cmd.Join? then AccessTo(s, id.userId, frame.cmd.room, lookups) else NoRoom;
    assert ReadsAs(s, c, frame, lookups, access);
  }

  predicate ReadsAs(s: Sys, c: ClientId, frame: Frame, lookups: Lookups, access: Access)
    requires c in s.conns
  {
    Reading(s, c, frame, lookups) == StepConn(s.cfg, s.conns[c], Who(s.hub, c), Inbound(frame, access))
  }

  lemma ReceiveQuota(s: Sys, c: ClientId, frame: Frame, lookups: Lookups, join: bool)
    requires CanMove(s, Receive(c, frame, lookups)) && LimitsOk(s, c) && LimitOf(s.cfg, join) > 0
    ensures var s' := Next(s, Receive(c, frame, lookups));
            SentBy(s', c, join) + QuotaLeft(s', c, join) <= SentBy(s, c, join) + QuotaLeft(s, c, join)
  {
    ReceiveIs(s, c, frame, lookups);
    var access :| ReadsAs(s, c, frame, lookups, access);
    StepQuota(s.cfg, s.conns[c], Who(s.hub, c), Inbound(frame, access), join);
    var out := Reading(s, c, frame, lookups).2;
    if out.Enqueue? {
      CountAppend(Held(s.pipe.sent, c), out.cmd, join);
    }
  }

  lemma LimitsKept(s: Sys, mv: Move, c: ClientId)
    requires CanMove(s, mv) && LimitsOk(s, c)
    ensures LimitsOk(Next(s, mv), c)
  {}

  lemma MoveQuota(s: Sys, mv: Move, c: ClientId, join: bool)
    requires CanMove(s, mv) && LimitsOk(s, c) && LimitOf(s.cfg, join) > 0
    requires !(mv.Connect? && mv.c == c)
    ensures var s' := Next(s, mv);
            if IsTick(mv, c, join)
            then SentBy(s', c, join) == SentBy(s, c, join) && QuotaLeft(s', c, join) <= LimitOf(s.cfg, join)
            else SentBy(s', c, join) + QuotaLeft(s', c, join) <= SentBy(s, c, join) + QuotaLeft(s, c, join)
  {
    if mv.Receive? && mv.c == c {
      ReceiveQuota(s, c, mv.frame, mv.lookups, join);
    }
  }

  lemma ConnectQuota(s: Sys, name: string, c: ClientId, join: bool)
    requires CanMove(s, Connect(c, name)) && LimitOf(s.cfg, join) > 0
    ensures var s' := Next(s, Connect(c, name));
            SentBy(s', c, join) == 0 && QuotaLeft(s', c, join) == LimitOf(s.cfg, join)
  {}

  /** A stretch of a run, from any state. */
  ghost predicate IsStretch(s: Sys, moves: seq<Move>) {
    moves == [] || (IsStretch(s, Init(moves)) && CanMove(Run(s, Init(moves)), Last(moves)))
  }

  lemma {:induction false} StretchLimits(s: Sys, moves: seq<Move>, c: ClientId)
    requires IsStretch(s, moves) && LimitsOk(s, c)
    ensures LimitsOk(Run(s, moves), c) && Run(s, moves).cfg == s.cfg
  {
    if moves != [] {
      StretchLimits(s, Init(moves), c);
      LimitsKept(Run(s, Init(moves)), Last(moves), c);
    }
  }

  /** A run cut in two: what follows is a stretch from the state reached. */
  lemma {:induction false} RunSplits(init: Sys, pre: seq<Move>, more: seq<Move>)
    requires IsRun(init, pre + more)
    ensures IsRun(init, pre) && IsStretch(Run(init, pre), more)
    ensures Run(init, pre + more) == Run(Run(init, pre), more)
  {
    if more == [] {
      assert pre + more == pre;
    } else {
      assert Init(pre + more) == pre + Init(more);
      RunSplits(init, pre, Init(more));
    }
  }

  lemma {:induction false} RunIsStretch(init: Sys, moves: seq<Move>)
    requires IsRun(init, moves)
    ensures Start(init) && IsStretch(init, moves)
  {
    if moves != [] {
      RunIsStretch(init, Init(moves));
    }
  }

  /** One full quota, and another for each reset. */
  function Allowance(k: nat, limit: int): (r: int)
    requires limit > 0
    ensures r >= limit
  {
    if k == 0 then limit else Allowance(k - 1, limit) + limit
  }

  lemma {:induction false} AllowanceIs(k: nat, limit: int)
    requires limit > 0
    ensures Allowance(k, limit) == (k + 1) * limit
  {
    if k > 0 {
      AllowanceIs(k - 1, limit);
      assert (k + 1) * limit == k * limit + limit;
    }
  }

  lemma {:induction false} SentWithinQuota(s: Sys, moves: seq<Move>, c: ClientId, join: bool)
    requires IsStretch(s, moves) && LimitsOk(s, c) && LimitOf(s.cfg, join) > 0
    ensures SentBy(Run(s, moves), c, join) + QuotaLeft(Run(s, moves), c, join)
         <= SentBy(s, c, join) + Allowance(Ticks(moves, c, join), LimitOf(s.cfg, join))
  {
    if moves != [] {
      var pre := Init(moves);
      StretchLimits(s, pre, c);
      SentWithinQuota(s, pre, c, join);
      QuotaStep(Run(s, pre), Last(moves), c, join,
                SentBy(s, c, join) + Allowance(Ticks(pre, c, join), LimitOf(s.cfg, join)));
    }
  }

  /** One move, against any bound that leaves at least one full quota. */
  lemma QuotaStep(s: Sys, mv: Move, c: ClientId, join: bool, bound: int)
    requires CanMove(s, mv) && LimitsOk(s, c) && 0 < LimitOf(s.cfg, join) <= bound
    requires SentBy(s, c, join) + QuotaLeft(s, c, join) <= bound
    ensures var s' := Next(s, mv);
            SentBy(s', c, join) + QuotaLeft(s', c, join)
            <= bound + if IsTick(mv, c, join) then LimitOf(s.cfg, join) else 0
  {
    if mv.Connect? && mv.c == c {
      ConnectQuota(s, mv.name, c, join);
    } else {
      MoveQuota(s, mv, c, join);
    }
  }

  lemma LimitsAfter(init: Sys, moves: seq<Move>, c: ClientId)
    requires IsRun(init, moves)
    ensures LimitsOk(Run(init, moves), c) && Run(init, moves).cfg == init.cfg
  {
    RunIsStretch(init, moves);
    StretchLimits(init, moves, c);
  }

  lemma SentWithinAllowance(init: Sys, pre: seq<Move>, more: seq<Move>, c: ClientId, join: bool)
    requires IsRun(init, pre + more) && LimitOf(init.cfg, join) > 0
    ensures SentBy(Run(init, pre + more), c, join) - SentBy(Run(init, pre), c, join)
         <= Allowance(Ticks(more, c, join), LimitOf(init.cfg, join))
  {
    RunSplits(init, pre, more);
    LimitsAfter(init, pre, c);
    SentWithinQuota(Run(init, pre), more, c, join);
  }

  /** Between any two points of any run of the server with k resets of a client's limiter in between,
      at most (k + 1) * limit of that client's commands of the limited kind enter the pipeline. */
  lemma SentIsBounded(init: Sys, pre: seq<Move>, more: seq<Move>, c: ClientId, join: bool, k: nat, limit: int)
    requires IsRun(init, pre + more) && k == Ticks(more, c, join) && limit == LimitOf(init.cfg, join) > 0
    ensures SentBy(Run(init, pre + more), c, join) - SentBy(Run(init, pre), c, join) <= (k + 1) * limit
  {
    SentWithinAllowance(init, pre, more, c, join);
    AllowanceIs(k, limit);
  }
}
