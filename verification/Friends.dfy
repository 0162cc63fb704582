/**
 Friendships: the service operations over the friends table, with every store
 call allowed to fail, and what all their runs keep.
 */
module Friends {
  import opened Common

  datatype Status = Pending | Accepted | Blocked

  /** Rows by (user_id, friend_id), the table's unique key. */
  type Table = map<(int, int), Status>

  /** Which store calls fail during one operation. `user`: the target user is not found or not
      readable; `lookup`: GetFriendship; `reverse`: when both directions are stored, the
      unordered query happens to return the reverse row; `readback`: the insert took
      place but reading the new row back failed; `update`: an update may also take place
      and still report an error. */
  datatype Faults = Faults(
    user: bool, lookup: bool, reverse: bool, insert: bool, readback: bool, update: Write, delete: bool)

  datatype Error =
    | CannotFriendSelf | UserNotFound | AlreadyFriends | RequestExists | BlockedByThem | UnblockFirst
    | RequestNotFound | NotBlocked | StoreError

  type Outcome = Result<(), Error>

  // ---- The store ----

  function Row(t: Table, a: int, b: int): Option<Status> {
    if (a, b) in t then Some(t[(a, b)]) else None
  }

  /** GetFriendship: one row of the pair, in either direction. */
  function GetFriendship(t: Table, a: int, b: int, reverse: bool): Option<(int, int)> {
    if (a, b) in t && !(reverse && (b, a) in t) then Some((a, b))
    else if (b, a) in t then Some((b, a))
    else None
  }

  predicate IsFriend(t: Table, a: int, b: int) {
    Row(t, a, b) == Some(Accepted) || Row(t, b, a) == Some(Accepted)
  }

  /** CreateFriendRequest: fails on the unique key; a failed read-back leaves the row in place. */
  function Insert(t: Table, k: (int, int), f: Faults): (Table, bool) {
    if f.insert || k in t then (t, false) else (t[k := Pending], !f.readback)
  }

  function Update(t: Table, k: (int, int), s: Status, f: Faults): (Table, Outcome) {
    if f.update.Fails? || k !in t then (t, Err(StoreError))
    else (t[k := s], if f.update.Works? then Ok(()) else Err(StoreError))
  }

  function Delete(t: Table, k: (int, int), f: Faults): (Table, Outcome) {
    if f.delete then (t, Err(StoreError)) else (t - {k}, Ok(()))
  }

  // ---- The operations ----

  function Found(t: Table, a: int, b: int, f: Faults): Option<(int, int)> {
    if f.lookup then None else GetFriendship(t, a, b, f.reverse)
  }

  function SendRequest(t: Table, from: int, to: int, f: Faults): (Table, Outcome) {
    if from == to then (t, Err(CannotFriendSelf))
    else if f.user then (t, Err(UserNotFound))
    else match Found(t, from, to, f)
      case Some(k) =>
        (t, Err(match t[k]
                case Accepted => AlreadyFriends
                case Pending => RequestExists
                case Blocked => if k.0 == to then BlockedByThem else UnblockFirst))
      case None =>
        var (t', ok) := Insert(t, (from, to), f);
        (t', if ok then Ok(()) else Err(StoreError))
  }

  /** The pending request directed to `user`, as accept and reject look it up. */
  function Incoming(t: Table, user: int, from: int, f: Faults): Option<(int, int)> {
    match Found(t, from, user, f)
    case Some(k) => if t[k] == Pending && k.1 == user then Some(k) else None
    case None => None
  }

  function AcceptRequest(t: Table, user: int, from: int, f: Faults): (Table, Outcome) {
    match Incoming(t, user, from, f)
    case Some(k) => Update(t, k, Accepted, f)
    case None => (t, Err(RequestNotFound))
  }

  function RejectRequest(t: Table, user: int, from: int, f: Faults): (Table, Outcome) {
    match Incoming(t, user, from, f)
    case Some(k) => Delete(t, k, f)
    case None => (t, Err(RequestNotFound))
  }

  function InsertBlock(t: Table, k: (int, int), f: Faults): (Table, Outcome) {
    var (t', ok) := Insert(t, k, f);
    if ok then Update(t', k, Blocked, f) else (t', Err(StoreError))
  }

  function BlockUser(t: Table, user: int, target: int, f: Faults): (Table, Outcome) {
    if user == target then (t, Err(CannotFriendSelf))
    else if f.user then (t, Err(UserNotFound))
    else match Found(t, user, target, f)
      case Some(k) =>
        if k.0 == user then Update(t, (user, target), Blocked, f)
        else
          var (t', deleted) := Delete(t, k, f);
          if deleted.Err? then (t', deleted) else InsertBlock(t', (user, target), f)
      case None => InsertBlock(t, (user, target), f)
  }

  function UnblockUser(t: Table, user: int, target: int, f: Faults): (Table, Outcome) {
    match Found(t, user, target, f)
    case Some(k) =>
      if t[k] == Blocked && k.0 == user then Delete(t, (user, target), f) else (t, Err(NotBlocked))
    case None => (t, Err(NotBlocked))
  }

  datatype Op =
    | Send(user: int, other: int, f: Faults)
    | Accept(user: int, other: int, f: Faults)
    | Reject(user: int, other: int, f: Faults)
    | Block(user: int, other: int, f: Faults)
    | Unblock(user: int, other: int, f: Faults)

  function Step(t: Table, op: Op): Table {
    match op
    case Send(u, v, f) => SendRequest(t, u, v, f).0
    case Accept(u, v, f) => AcceptRequest(t, u, v, f).0
    case Reject(u, v, f) => RejectRequest(t, u, v, f).0
    case Block(u, v, f) => BlockUser(t, u, v, f).0
    case Unblock(u, v, f) => UnblockUser(t, u, v, f).0
  }

  /** The table after a run that starts with no friendships. */
  function After(ops: seq<Op>): Table {
    if ops == [] then map[] else Step(After(ops[..|ops| - 1]), ops[|ops| - 1])
  }

  // ---- One row per unordered pair ----

  predicate OneRow(t: Table, a: int, b: int) {
    (a, b) in t ==> (b, a) !in t
  }

  ghost predicate Unique(t: Table) {
    forall a, b :: OneRow(t, a, b)
  }

  /** The read that guards an insert failed while the pair was stored the other way round. */
  predicate BlindInsert(t: Table, op: Op) {
    && (op.Send? || op.Block?) && op.user != op.other
    && op.f.lookup && !op.f.user && !op.f.insert
    && (op.user, op.other) !in t && (op.other, op.user) in t
  }

  predicate ConcernsPair(op: Op, a: int, b: int) {
    (op.user, op.other) == (a, b) || (op.user, op.other) == (b, a)
  }

  /** One operation gives a pair a second row exactly when it inserts blindly for that pair. */
  lemma OneRowKeptIff(t: Table, op: Op, a: int, b: int)
    requires OneRow(t, a, b)
    ensures OneRow(Step(t, op), a, b) <==> !(BlindInsert(t, op) && ConcernsPair(op, a, b))
  {}

  predicate BlindAt(ops: seq<Op>, i: nat, a: int, b: int) {
    i < |ops| && BlindInsert(After(ops[..i]), ops[i]) && ConcernsPair(ops[i], a, b)
  }

  /** No step of the run inserted blindly for this pair. */
  ghost predicate NoBlind(ops: seq<Op>, a: int, b: int) {
    forall i: nat :: !BlindAt(ops, i, a, b)
  }

  lemma NoBlindPrefix(ops: seq<Op>, n: nat, a: int, b: int)
    requires NoBlind(ops, a, b) && n <= |ops|
    ensures NoBlind(ops[..n], a, b)
  {
    forall i: nat ensures !BlindAt(ops[..n], i, a, b) {
      assert !BlindAt(ops, i, a, b);
      if i < n {
        assert ops[..n][..i] == ops[..i];
      }
    }
  }

  lemma {:induction false} RunOneRow(ops: seq<Op>, a: int, b: int)
    requires NoBlind(ops, a, b)
    ensures OneRow(After(ops), a, b)
  {
    if ops != [] {
      NoBlindPrefix(ops, |ops| - 1, a, b);
      RunOneRow(ops[..|ops| - 1], a, b);
      assert !BlindAt(ops, |ops| - 1, a, b);
      LastOf(ops);
      OneRowKeptIff(After(ops[..|ops| - 1]), ops[|ops| - 1], a, b);
    }
  }

  predicate OneRowAt(ops: seq<Op>, n: nat, a: int, b: int) {
    n <= |ops| ==> OneRow(After(ops[..n]), a, b)
  }

  /** A run keeps one row for a pair throughout exactly when no insert for that pair was blind, whatever
      happens to other pairs. */
  lemma RunOneRowIff(ops: seq<Op>, a: int, b: int)
    ensures (forall n: nat :: OneRowAt(ops, n, a, b)) <==> NoBlind(ops, a, b)
  {
    if NoBlind(ops, a, b) {
      forall n: nat ensures OneRowAt(ops, n, a, b) {
        if n <= |ops| {
          NoBlindPrefix(ops, n, a, b);
          RunOneRow(ops[..n], a, b);
        }
      }
    }
    if forall n: nat :: OneRowAt(ops, n, a, b) {
      forall i: nat ensures !BlindAt(ops, i, a, b) {
        if i < |ops| {
          PrefixRun(ops, i);
          assert OneRowAt(ops, i, a, b) && OneRowAt(ops, i + 1, a, b);
          OneRowKeptIff(After(ops[..i]), ops[i], a, b);
        }
      }
    }
  }

  /** For all pairs at once: one operation, and a whole run. */
  lemma UniqueKeptIff(t: Table, op: Op)
    requires Unique(t)
    ensures Unique(Step(t, op)) <==> !BlindInsert(t, op)
  {
    forall a, b ensures OneRow(Step(t, op), a, b) <==> !(BlindInsert(t, op) && ConcernsPair(op, a, b)) {
      assert OneRow(t, a, b);
      OneRowKeptIff(t, op, a, b);
    }
    assert BlindInsert(t, op) ==> !OneRow(Step(t, op), op.user, op.other);
  }

  ghost predicate UniqueAt(ops: seq<Op>, n: nat) {
    n <= |ops| ==> Unique(After(ops[..n]))
  }

  lemma RunUniqueIff(ops: seq<Op>)
    ensures (forall n: nat :: UniqueAt(ops, n)) <==> (forall a, b :: NoBlind(ops, a, b))
  {
    forall a, b ensures (forall n: nat :: OneRowAt(ops, n, a, b)) <==> NoBlind(ops, a, b) {
      RunOneRowIff(ops, a, b);
    }
    if forall a, b :: NoBlind(ops, a, b) {
      forall n: nat ensures UniqueAt(ops, n) {
        forall a, b | n <= |ops| ensures OneRow(After(ops[..n]), a, b) {
          assert NoBlind(ops, a, b);
          assert OneRowAt(ops, n, a, b);
        }
      }
    }
    if forall n: nat :: UniqueAt(ops, n) {
      forall a, b ensures NoBlind(ops, a, b) {
        forall n: nat ensures OneRowAt(ops, n, a, b) {
          assert UniqueAt(ops, n);
          assert n <= |ops| ==> OneRow(After(ops[..n]), a, b);
        }
      }
    }
  }

  const FINE := Faults(false, false, false, false, false, Works, false)

  /** A blind insert can happen: with the guarding lookup failing, friends end up with a second row,
      and then the lookup may say blocked while IsFriend says friends. */
  lemma BlindInsertContradicts(u: int, v: int)
    requires u != v
    ensures var t := After([Send(u, v, FINE)] + [Accept(v, u, FINE)] + [Block(v, u, FINE.(lookup := true))]);
            && !OneRow(t, u, v) && IsFriend(t, u, v)
            && GetFriendship(t, u, v, true) == Some((v, u)) && t[(v, u)] == Blocked
  {
    var o1, o2, o3 := Send(u, v, FINE), Accept(v, u, FINE), Block(v, u, FINE.(lookup := true));
    assert [] + [o1] == [o1];
    LastStep([], o1);
    LastStep([o1], o2);
    LastStep([o1] + [o2], o3);
    assert After([o1] + [o2]) == map[(u, v) := Accepted];
  }

  /** With one row for the pair the lookup is symmetric and agrees with IsFriend. */
  lemma LookupAgrees(t: Table, a: int, b: int, v: bool, w: bool)
    requires OneRow(t, a, b)
    ensures GetFriendship(t, a, b, v) == GetFriendship(t, b, a, w)
    ensures IsFriend(t, a, b) <==> GetFriendship(t, a, b, v).Some? && t[GetFriendship(t, a, b, v).value] == Accepted
    ensures IsFriend(t, a, b) <==> IsFriend(t, b, a)
  {}

  /** Without it they can disagree: some answer of the lookup contradicts IsFriend exactly when
      both directions are stored and only one of them is accepted. */
  lemma LookupContradictsIff(t: Table, a: int, b: int)
    ensures (exists v ::
               var k := GetFriendship(t, a, b, v); !(IsFriend(t, a, b) <==> k.Some? && t[k.value] == Accepted))
            <==> (a, b) in t && (b, a) in t && (t[(a, b)] == Accepted) != (t[(b, a)] == Accepted)
  {
    if (a, b) in t && (b, a) in t {
      assert GetFriendship(t, a, b, true) == Some((b, a)) && GetFriendship(t, a, b, false) == Some((a, b));
    }
  }

  // ---- Friendship needs consent ----

  /** A block that stored its row but did not get to mark it as blocked. */
  predicate HalfBlock(t: Table, op: Op) {
    op.Block? && Row(t, op.user, op.other).None? && Row(Step(t, op), op.user, op.other) == Some(Pending)
  }

  /** Such a block leaves a friend request behind; exactly these faults produce it. */
  lemma HalfBlockIff(t: Table, op: Op)
    requires op.Block?
    ensures HalfBlock(t, op) <==>
              && op.user != op.other && !op.f.user && (op.user, op.other) !in t
              && ((op.other, op.user) in t && !op.f.lookup ==> !op.f.delete)
              && !op.f.insert && (op.f.readback || op.f.update.Fails?)
  {}

  /** The blocked user can then accept it: a friendship that nobody requested. */
  lemma HalfBlockBefriends(u: int, v: int)
    requires u != v
    ensures IsFriend(After([Block(u, v, FINE.(update := Fails))] + [Accept(v, u, FINE)]), u, v)
  {
    var o1, o2 := Block(u, v, FINE.(update := Fails)), Accept(v, u, FINE);
    assert [] + [o1] == [o1];
    LastStep([], o1);
    LastStep([o1], o2);
  }

  /** From step n on, no step but j changed the row from x to y. */
  ghost predicate Untouched(ops: seq<Op>, n: nat, j: int, x: int, y: int) {
    forall k: nat :: n <= k && k != j ==> SameRowAt(ops, k, x, y)
  }

  predicate SameRowAt(ops: seq<Op>, k: nat, x: int, y: int) {
    k < |ops| ==> Row(After(ops[..k]), x, y) == Row(After(ops[..k + 1]), x, y)
  }

  lemma PrefixRun(ops: seq<Op>, k: nat)
    requires k < |ops|
    ensures After(ops[..k + 1]) == Step(After(ops[..k]), ops[k])
  {
    assert ops[..k + 1][..k] == ops[..k];
  }

  /** How a row can turn pending or accepted in one step, whatever fails. */
  lemma StepCauses(t: Table, op: Op, x: int, y: int)
    requires Row(Step(t, op), x, y) != Row(t, x, y)
    ensures Row(Step(t, op), x, y) == Some(Pending) ==>
              (op.Send? || HalfBlock(t, op)) && (op.user, op.other) == (x, y) && Row(t, x, y).None?
    ensures Row(Step(t, op), x, y) == Some(Accepted) ==>
              op.Accept? && (op.user, op.other) == (y, x) && Row(t, x, y) == Some(Pending)
  {}

  /** Step i stored the request from x to y: x sent it, or it is what a half-way block by x left. */
  ghost predicate RequestedAt(ops: seq<Op>, i: nat, x: int, y: int) {
    && i < |ops| && (ops[i].Send? || HalfBlock(After(ops[..i]), ops[i])) && ops[i].user == x && ops[i].other == y
    && Row(After(ops[..i]), x, y).None?
    && Row(After(ops[..i + 1]), x, y) == Some(Pending)
  }

  ghost predicate AcceptedAt(ops: seq<Op>, j: nat, x: int, y: int) {
    && j < |ops| && ops[j].Accept? && ops[j].user == y && ops[j].other == x
    && Row(After(ops[..j]), x, y) == Some(Pending)
    && Row(After(ops[..j + 1]), x, y) == Some(Accepted)
  }

  lemma UntouchedExtends(pre: seq<Op>, op: Op, n: nat, j: int, x: int, y: int)
    requires Untouched(pre, n, j, x, y)
    requires j == |pre| || Row(After(pre), x, y) == Row(Step(After(pre), op), x, y)
    ensures Untouched(pre + [op], n, j, x, y)
  {
    var ops := pre + [op];
    LastStep(pre, op);
    forall k: nat | n <= k && k != j ensures SameRowAt(ops, k, x, y) {
      assert SameRowAt(pre, k, x, y);
      if k < |pre| {
        assert ops[..k] == pre[..k] && ops[..k + 1] == pre[..k + 1];
      }
    }
  }

  lemma RequestedExtends(pre: seq<Op>, op: Op, i: nat, x: int, y: int)
    requires RequestedAt(pre, i, x, y)
    ensures RequestedAt(pre + [op], i, x, y)
  {
    var ops := pre + [op];
    assert ops[..i] == pre[..i] && ops[..i + 1] == pre[..i + 1];
  }

  lemma AcceptedExtends(pre: seq<Op>, op: Op, j: nat, x: int, y: int)
    requires AcceptedAt(pre, j, x, y)
    ensures AcceptedAt(pre + [op], j, x, y)
  {
    var ops := pre + [op];
    assert ops[..j] == pre[..j] && ops[..j + 1] == pre[..j + 1];
  }

  lemma LastStep(pre: seq<Op>, op: Op)
    ensures (pre + [op])[..|pre|] == pre && (pre + [op])[..|pre| + 1] == pre + [op]
    ensures After(pre + [op]) == Step(After(pre), op)
  {
    var ops := pre + [op];
    assert ops[..|pre|] == pre && ops[|pre|] == op;
    LastOf(ops);
  }

  /** In every run, whatever fails, a pending row was requested by its owner and not touched since. */
  lemma {:induction false} PendingOrigin(ops: seq<Op>, x: int, y: int)
    requires Row(After(ops), x, y) == Some(Pending)
    ensures exists i: nat :: RequestedAt(ops, i, x, y) && Untouched(ops, i + 1, -1, x, y)
  {
    var pre, op := ops[..|ops| - 1], ops[|ops| - 1];
    assert ops == pre + [op];
    LastStep(pre, op);
    if Row(After(pre), x, y) == Row(After(ops), x, y) {
      PendingOrigin(pre, x, y);
      var i: nat :| RequestedAt(pre, i, x, y) && Untouched(pre, i + 1, -1, x, y);
      UntouchedExtends(pre, op, i + 1, -1, x, y);
      RequestedExtends(pre, op, i, x, y);
    } else {
      StepCauses(After(pre), op, x, y);
      assert RequestedAt(ops, |pre|, x, y);
    }
  }

  /** In every run, whatever fails, each friendship was requested by one of the two and later accepted
      by the other, and no other step, such as a reject or a block, has touched its row since. */
  lemma {:induction false} FriendsConsented(ops: seq<Op>, x: int, y: int)
    requires Row(After(ops), x, y) == Some(Accepted)
    ensures exists i: nat, j: nat ::
              i < j && RequestedAt(ops, i, x, y) && AcceptedAt(ops, j, x, y) && Untouched(ops, i + 1, j, x, y)
  {
    var pre, op := ops[..|ops| - 1], ops[|ops| - 1];
    assert ops == pre + [op];
    LastStep(pre, op);
    if Row(After(pre), x, y) == Row(After(ops), x, y) {
      FriendsConsented(pre, x, y);
      var i: nat, j: nat :|
        i < j && RequestedAt(pre, i, x, y) && AcceptedAt(pre, j, x, y) && Untouched(pre, i + 1, j, x, y);
      UntouchedExtends(pre, op, i + 1, j, x, y);
      RequestedExtends(pre, op, i, x, y);
      AcceptedExtends(pre, op, j, x, y);
    } else {
      StepCauses(After(pre), op, x, y);
      PendingOrigin(pre, x, y);
      var i: nat :| RequestedAt(pre, i, x, y) && Untouched(pre, i + 1, -1, x, y);
      assert Untouched(pre, i + 1, |pre|, x, y);
      UntouchedExtends(pre, op, i + 1, |pre|, x, y);
      RequestedExtends(pre, op, i, x, y);
      assert AcceptedAt(ops, |pre|, x, y);
    }
  }

  /** Step i was a block by x against y that failed half-way. */
  ghost predicate HalfBlockAt(ops: seq<Op>, i: nat, x: int, y: int) {
    i < |ops| && HalfBlock(After(ops[..i]), ops[i]) && ops[i].user == x && ops[i].other == y
  }

  ghost predicate NeverStored(ops: seq<Op>, n: nat, x: int, y: int) {
    forall k: nat :: n <= k ==> AbsentAt(ops, k, x, y)
  }

  predicate AbsentAt(ops: seq<Op>, k: nat, x: int, y: int) {
    k <= |ops| ==> Row(After(ops[..k]), x, y).None?
  }

  /** With no blind insert for the pair and no half-way block by the owner of the row: the friendship
      was sent as a request, and the other side has had no row of its own since then, so it has not
      blocked either. Other pairs do not matter. */
  lemma FriendsConsentedFully(ops: seq<Op>, x: int, y: int)
    requires NoBlind(ops, x, y) && (forall i: nat :: !HalfBlockAt(ops, i, x, y))
    requires Row(After(ops), x, y) == Some(Accepted)
    ensures exists i: nat, j: nat ::
              && i < j && RequestedAt(ops, i, x, y) && ops[i].Send? && AcceptedAt(ops, j, x, y)
              && Untouched(ops, i + 1, j, x, y) && NeverStored(ops, i + 1, y, x)
  {
    FriendsConsented(ops, x, y);
    var i: nat, j: nat :|
      i < j && RequestedAt(ops, i, x, y) && AcceptedAt(ops, j, x, y) && Untouched(ops, i + 1, j, x, y);
    assert !HalfBlockAt(ops, i, x, y);
    forall k: nat | i + 1 <= k ensures AbsentAt(ops, k, y, x) {
      if k <= |ops| {
        ReverseAbsent(ops, i + 1, j, k, x, y);
      }
    }
  }

  lemma ReverseAbsent(ops: seq<Op>, n: nat, j: nat, k: nat, x: int, y: int)
    requires NoBlind(ops, x, y) && n <= k <= |ops| && Untouched(ops, n, j, x, y) && AcceptedAt(ops, j, x, y)
    requires (x, y) in After(ops[..n])
    ensures AbsentAt(ops, k, y, x)
  {
    RowStays(ops, n, j, k, x, y);
    NoBlindPrefix(ops, k, x, y);
    RunOneRow(ops[..k], x, y);
  }

  lemma {:induction false} RowStays(ops: seq<Op>, n: nat, j: nat, k: nat, x: int, y: int)
    requires n <= k <= |ops| && Untouched(ops, n, j, x, y) && AcceptedAt(ops, j, x, y)
    requires (x, y) in After(ops[..n])
    ensures (x, y) in After(ops[..k])
  {
    if n < k {
      RowStays(ops, n, j, k - 1, x, y);
      if k - 1 != j {
        assert SameRowAt(ops, k - 1, x, y);
      }
    }
  }

  // ---- A block stays until its owner lifts it ----

  predicate IsBlocked(t: Table, a: int, b: int) {
    Row(t, a, b) == Some(Blocked) || Row(t, b, a) == Some(Blocked)
  }

  predicate OwnerUnblocks(t: Table, op: Op) {
    op.Unblock? && Row(t, op.user, op.other) == Some(Blocked) && !op.f.lookup && !op.f.delete
  }

  /** The other side blocks too: the old row is deleted, and the new one is not completed. */
  predicate CounterBlockFails(t: Table, op: Op) {
    && op.Block? && op.user != op.other && !op.f.user && !op.f.lookup
    && Row(t, op.other, op.user) == Some(Blocked)
    && !op.f.delete && (op.f.insert || op.f.readback || op.f.update.Fails?)
  }

  /** Exactly when one step ends the block of a pair, whatever store calls fail. */
  lemma BlockLostIff(t: Table, op: Op, a: int, b: int)
    requires OneRow(t, a, b) && IsBlocked(t, a, b)
    ensures !IsBlocked(Step(t, op), a, b)
            <==> ConcernsPair(op, a, b) && (OwnerUnblocks(t, op) || CounterBlockFails(t, op))
  {}

  /** No step of the run was a counter-block within this pair that failed half-way. */
  ghost predicate NoFailedCounter(ops: seq<Op>, a: int, b: int) {
    forall k: nat :: !CounterFailsAt(ops, k, a, b)
  }

  predicate CounterFailsAt(ops: seq<Op>, k: nat, a: int, b: int) {
    k < |ops| && CounterBlockFails(After(ops[..k]), ops[k]) && ConcernsPair(ops[k], a, b)
  }

  lemma NoFailedCounterPrefix(ops: seq<Op>, a: int, b: int)
    requires NoFailedCounter(ops, a, b) && ops != []
    ensures NoFailedCounter(ops[..|ops| - 1], a, b)
  {
    var pre := ops[..|ops| - 1];
    forall k: nat ensures !CounterFailsAt(pre, k, a, b) {
      assert !CounterFailsAt(ops, k, a, b);
      if k < |pre| {
        assert pre[..k] == ops[..k];
      }
    }
  }

  /** Step k lifted the block of the pair, on behalf of its owner at that moment. */
  ghost predicate LiftedAt(ops: seq<Op>, k: nat, a: int, b: int) {
    k < |ops| && ConcernsPair(ops[k], a, b) && OwnerUnblocks(After(ops[..k]), ops[k])
  }

  lemma LiftedExtends(ops: seq<Op>, k: nat, a: int, b: int)
    requires ops != [] && LiftedAt(ops[..|ops| - 1], k, a, b)
    ensures LiftedAt(ops, k, a, b)
  {
    assert ops[..|ops| - 1][..k] == ops[..k];
  }

  /** If a pair's own operations include no blind insert and no half-way counter-block, a block that is
      gone was lifted by its owner at the time, whatever happens to other pairs. */
  lemma {:induction false} BlockOutlasts(ops: seq<Op>, i: nat, a: int, b: int)
    requires i <= |ops| && NoBlind(ops, a, b) && NoFailedCounter(ops, a, b)
    requires IsBlocked(After(ops[..i]), a, b) && !IsBlocked(After(ops), a, b)
    ensures exists k: nat :: i <= k && LiftedAt(ops, k, a, b)
    decreases |ops|
  {
    assert ops[..|ops|] == ops;
    var n := |ops| - 1;
    var pre := ops[..n];
    NoBlindPrefix(ops, n, a, b);
    if IsBlocked(After(pre), a, b) {
      LastLifts(ops, a, b);
    } else {
      assert pre[..i] == ops[..i];
      NoFailedCounterPrefix(ops, a, b);
      BlockOutlasts(pre, i, a, b);
      var k: nat :| i <= k && LiftedAt(pre, k, a, b);
      LiftedExtends(ops, k, a, b);
    }
  }

  lemma LastLifts(ops: seq<Op>, a: int, b: int)
    requires ops != [] && NoBlind(ops[..|ops| - 1], a, b) && NoFailedCounter(ops, a, b)
    requires IsBlocked(After(ops[..|ops| - 1]), a, b) && !IsBlocked(After(ops), a, b)
    ensures LiftedAt(ops, |ops| - 1, a, b)
  {
    var n := |ops| - 1;
    RunOneRow(ops[..n], a, b);
    LastOf(ops);
    BlockLostIff(After(ops[..n]), ops[n], a, b);
    assert !CounterFailsAt(ops, n, a, b);
  }

  lemma LastOf(ops: seq<Op>)
    requires ops != []
    ensures After(ops) == Step(After(ops[..|ops| - 1]), ops[|ops| - 1])
  {}

  /** A counter-block that fails half-way lifts the block nobody lifted, and leaves a friend request. */
  lemma CounterBlockLifts(u: int, v: int)
    requires u != v
    ensures var o1, o2 := Block(u, v, FINE), Block(v, u, FINE.(update := Fails));
            && IsBlocked(After([o1]), u, v) && CounterBlockFails(After([o1]), o2)
            && !IsBlocked(After([o1] + [o2]), u, v) && Row(After([o1] + [o2]), v, u) == Some(Pending)
  {
    var o1, o2 := Block(u, v, FINE), Block(v, u, FINE.(update := Fails));
    assert [] + [o1] == [o1];
    LastStep([], o1);
    LastStep([o1], o2);
    assert After([o1]) == map[(u, v) := Blocked];
  }
}
