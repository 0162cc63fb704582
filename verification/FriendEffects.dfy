/** What each friend operation answers and does, for every combination of failures. */
module FriendEffects {
  import opened Common
  import opened Friends

  /** Only the two rows of the pair may differ. */
  ghost predicate OthersSame(t: Table, t': Table, a: int, b: int) {
    forall k :: k != (a, b) && k != (b, a) ==> SameAt(t, t', k)
  }

  predicate SameAt(t: Table, t': Table, k: (int, int)) {
    (k in t <==> k in t') && (k in t ==> t'[k] == t[k])
  }

  predicate NoRow(t: Table, a: int, b: int) {
    (a, b) !in t && (b, a) !in t
  }

  /** A request is accepted for storing exactly if it is between two users, the other is found, the pair
      shows no row, and the insert and its read-back work; then it is pending. Otherwise the answer says
      why. */
  lemma SendDoes(t: Table, from: int, to: int, f: Faults)
    ensures var (t', r) := SendRequest(t, from, to, f);
            && (r.Ok? <==> && from != to && !f.user && (f.lookup || NoRow(t, from, to))
                           && (from, to) !in t && !f.insert && !f.readback)
            && (r.Ok? ==> t' == t[(from, to) := Pending])
            && (r.Err? ==> t' == t || (f.readback && (from, to) !in t && t' == t[(from, to) := Pending]))
            && (from == to ==> r == Err(CannotFriendSelf))
            && (from != to && f.user ==> r == Err(UserNotFound))
    ensures from != to && !f.user && !f.lookup && OneRow(t, from, to) ==>
              var r := SendRequest(t, from, to, f).1;
              && (IsFriend(t, from, to) <==> r == Err(AlreadyFriends))
              && (Row(t, from, to) == Some(Pending) || Row(t, to, from) == Some(Pending) <==> r == Err(RequestExists))
              && (Row(t, to, from) == Some(Blocked) <==> r == Err(BlockedByThem))
              && (Row(t, from, to) == Some(Blocked) <==> r == Err(UnblockFirst))
  {}

  /** With one row for the pair: accepting succeeds exactly if the other's request is pending and the
      store works; then the two are friends. */
  lemma AcceptDoes(t: Table, user: int, from: int, f: Faults)
    requires OneRow(t, from, user)
    ensures var (t', r) := AcceptRequest(t, user, from, f);
            var pending := !f.lookup && Row(t, from, user) == Some(Pending);
            && (r.Ok? <==> pending && f.update.Works?)
            && (pending && !f.update.Fails? ==> t' == t[(from, user) := Accepted] && IsFriend(t', user, from))
            && (!pending || f.update.Fails? ==> t' == t)
            && (!pending <==> r == Err(RequestNotFound))
  {}

  /** With one row for the pair: rejecting succeeds exactly if the other's request is pending and the
      store works; then the pair has no row. */
  lemma RejectDoes(t: Table, user: int, from: int, f: Faults)
    requires OneRow(t, from, user)
    ensures var (t', r) := RejectRequest(t, user, from, f);
            var pending := !f.lookup && Row(t, from, user) == Some(Pending);
            && (r.Ok? <==> pending && !f.delete)
            && (r.Ok? ==> NoRow(t', user, from) && OthersSame(t, t', user, from))
            && (r.Err? ==> t' == t)
            && (!pending <==> r == Err(RequestNotFound))
  {
    var t' := RejectRequest(t, user, from, f).0;
    forall k | k != (user, from) && k != (from, user) ensures SameAt(t, t', k) {}
  }

  /** Whatever the tables and the failures: a block that is answered with success blocks. */
  lemma BlockBlocks(t: Table, user: int, target: int, f: Faults)
    ensures var (t', r) := BlockUser(t, user, target, f);
            && (r.Ok? ==> user != target && Row(t', user, target) == Some(Blocked))
            && (user == target ==> r == Err(CannotFriendSelf) && t' == t)
            && (user != target && f.user ==> r == Err(UserNotFound) && t' == t)
            && OthersSame(t, t', user, target)
  {
    var t' := BlockUser(t, user, target, f).0;
    forall k | k != (user, target) && k != (target, user) ensures SameAt(t, t', k) {}
  }

  /** With one row for the pair: a block succeeds exactly if the user exists and the writes it needs work.
      If the lookup worked, the blocker's own blocked row is then the pair's only row, so the two are not
      friends and nothing is pending; if it failed, the other's row, if any, is still there. */
  lemma BlockDoes(t: Table, user: int, target: int, f: Faults)
    requires OneRow(t, user, target) && user != target
    ensures var (t', r) := BlockUser(t, user, target, f);
            && (r.Ok? <==> && !f.user && f.update.Works?
                           && (|| (!f.lookup && (user, target) in t)
                               || (&& (user, target) !in t && !f.insert && !f.readback
                                   && (!f.lookup && (target, user) in t ==> !f.delete))))
            && (r.Ok? && !f.lookup ==>
                  && Row(t', user, target) == Some(Blocked) && (target, user) !in t'
                  && !IsFriend(t', user, target) && !IsFriend(t', target, user)
                  && IsBlocked(t', user, target) && OneRow(t', user, target))
            && (r.Ok? && f.lookup ==>
                  Row(t', user, target) == Some(Blocked) && Row(t', target, user) == Row(t, target, user))
  {}

  /** With one row for the pair: unblocking succeeds exactly if the user's own row is a block and the
      store works; then the pair has no row. */
  lemma UnblockDoes(t: Table, user: int, target: int, f: Faults)
    requires OneRow(t, user, target)
    ensures var (t', r) := UnblockUser(t, user, target, f);
            var mine := !f.lookup && Row(t, user, target) == Some(Blocked);
            && (r.Ok? <==> mine && !f.delete)
            && (r.Ok? ==> NoRow(t', user, target) && OthersSame(t, t', user, target))
            && (r.Err? ==> t' == t)
            && (!mine <==> r == Err(NotBlocked))
  {
    var t' := UnblockUser(t, user, target, f).0;
    forall k | k != (user, target) && k != (target, user) ensures SameAt(t, t', k) {}
  }

  // ---- The life of a friendship, with the store working ----

  /** From any table with one row for the pair: a request between strangers, accepted, makes friends;
      rejected, leaves strangers; a block of either ends the friendship and bars new requests of both;
      lifting it leaves strangers. */
  lemma LifeOfAPair(t: Table, u: int, v: int)
    requires u != v && NoRow(t, u, v)
    ensures var asked := Step(t, Send(u, v, FINE));
            && Row(asked, u, v) == Some(Pending) && !IsFriend(asked, u, v)
            && IsFriend(Step(asked, Accept(v, u, FINE)), u, v)
            && Step(asked, Accept(u, v, FINE)) == asked
            && NoRow(Step(asked, Reject(v, u, FINE)), u, v)
    ensures var friends := Step(Step(t, Send(u, v, FINE)), Accept(v, u, FINE));
            && BarredAfter(friends, u, v) && BarredAfter(friends, v, u)
  {
    SendDoes(t, u, v, FINE);
    var asked := Step(t, Send(u, v, FINE));
    AcceptDoes(asked, v, u, FINE);
    RejectDoes(asked, v, u, FINE);
    var friends := Step(asked, Accept(v, u, FINE));
    BlockedMeansBarred(friends, u, v);
    BlockedMeansBarred(friends, v, u);
  }

  /** After a's block of b: no friends, no request of either gets through, only a can lift it. */
  ghost predicate BarredAfter(t: Table, a: int, b: int) {
    var blocked := Step(t, Block(a, b, FINE));
    && IsBlocked(blocked, a, b) && !IsFriend(blocked, a, b)
    && Step(blocked, Send(a, b, FINE)) == blocked && Step(blocked, Send(b, a, FINE)) == blocked
    && Step(blocked, Unblock(b, a, FINE)) == blocked
    && NoRow(Step(blocked, Unblock(a, b, FINE)), a, b)
  }

  lemma BlockedMeansBarred(t: Table, a: int, b: int)
    requires a != b && OneRow(t, a, b)
    ensures BarredAfter(t, a, b)
  {
    BlockDoes(t, a, b, FINE);
    var blocked := Step(t, Block(a, b, FINE));
    SendDoes(blocked, a, b, FINE);
    SendDoes(blocked, b, a, FINE);
    UnblockDoes(blocked, b, a, FINE);
    UnblockDoes(blocked, a, b, FINE);
  }
}
