/** The friend service as the source writes it: store calls one after another on a mutable table. */
module FriendsImpl {
  import opened Common
  import opened Friends

  class FriendService {
    var friends: Table
    ghost var ops: seq<Op>  // all operations so far

    /** The table is what the operations so far have made of an empty one, so that whatever holds
        of every run holds of this object. */
    ghost predicate Valid()
      reads this
    {
      friends == After(ops)
    }

    constructor ()
      ensures Valid() && ops == []
    {
      friends, ops := map[], [];
    }

    method QueryFriendship(a: int, b: int, f: Faults) returns (k: Option<(int, int)>)
      ensures k == Found(friends, a, b, f)
    {
      k := None;
      if !f.lookup {
        if (a, b) in friends && (b, a) in friends {
          k := Some(if f.reverse then (b, a) else (a, b));
        } else if (a, b) in friends {
          k := Some((a, b));
        } else if (b, a) in friends {
          k := Some((b, a));
        }
      }
    }

    method CreateFriendRequest(k: (int, int), f: Faults) returns (ok: bool)
      modifies this`friends
      ensures (friends, ok) == Insert(old(friends), k, f)
    {
      ok := false;
      if !f.insert && k !in friends {
        friends := friends[k := Pending];
        ok := !f.readback;
      }
    }

    method UpdateFriendStatus(k: (int, int), s: Status, f: Faults) returns (r: Outcome)
      modifies this`friends
      ensures (friends, r) == Update(old(friends), k, s, f)
    {
      r := Err(StoreError);
      if !f.update.Fails? && k in friends {
        friends := friends[k := s];
        if f.update.Works? {
          r := Ok(());
        }
      }
    }

    method DeleteFriendship(k: (int, int), f: Faults) returns (r: Outcome)
      modifies this`friends
      ensures (friends, r) == Delete(old(friends), k, f)
    {
      if f.delete {
        r := Err(StoreError);
      } else {
        friends := friends - {k};
        r := Ok(());
      }
    }

    method SendRequest(from: int, to: int, f: Faults) returns (r: Outcome)
      requires Valid()
      modifies this
      ensures Valid() && ops == old(ops) + [Send(from, to, f)]
      ensures (friends, r) == Friends.SendRequest(old(friends), from, to, f)
    {
      LastStep(ops, Send(from, to, f));
      ops := ops + [Send(from, to, f)];
      if from == to {
        return Err(CannotFriendSelf);
      }
      if f.user {
        return Err(UserNotFound);
      }
      var existing := QueryFriendship(from, to, f);
      if existing.Some? {
        match friends[existing.value]
        case Accepted => return Err(AlreadyFriends);
        case Pending => return Err(RequestExists);
        case Blocked =>
          if existing.value.0 == to {
            return Err(BlockedByThem);
          }
          return Err(UnblockFirst);
      }
      var ok := CreateFriendRequest((from, to), f);
      r := if ok then Ok(()) else Err(StoreError);
    }

    method AcceptRequest(user: int, from: int, f: Faults) returns (r: Outcome)
      requires Valid()
      modifies this
      ensures Valid() && ops == old(ops) + [Accept(user, from, f)]
      ensures (friends, r) == Friends.AcceptRequest(old(friends), user, from, f)
    {
      LastStep(ops, Accept(user, from, f));
      ops := ops + [Accept(user, from, f)];
      var existing := QueryFriendship(from, user, f);
      if existing.None? || friends[existing.value] != Pending || existing.value.1 != user {
        return Err(RequestNotFound);
      }
      r := UpdateFriendStatus(existing.value, Accepted, f);
    }

    method RejectRequest(user: int, from: int, f: Faults) returns (r: Outcome)
      requires Valid()
      modifies this
      ensures Valid() && ops == old(ops) + [Reject(user, from, f)]
      ensures (friends, r) == Friends.RejectRequest(old(friends), user, from, f)
    {
      LastStep(ops, Reject(user, from, f));
      ops := ops + [Reject(user, from, f)];
      var existing := QueryFriendship(from, user, f);
      if existing.None? || friends[existing.value] != Pending || existing.value.1 != user {
        return Err(RequestNotFound);
      }
      r := DeleteFriendship(existing.value, f);
    }

    method BlockUser(user: int, target: int, f: Faults) returns (r: Outcome)
      requires Valid()
      modifies this
      ensures Valid() && ops == old(ops) + [Block(user, target, f)]
      ensures (friends, r) == Friends.BlockUser(old(friends), user, target, f)
    {
      LastStep(ops, Block(user, target, f));
      ops := ops + [Block(user, target, f)];
      if user == target {
        return Err(CannotFriendSelf);
      }
      if f.user {
        return Err(UserNotFound);
      }
      var existing := QueryFriendship(user, target, f);
      if existing.Some? {
        if existing.value.0 == user {
          r := UpdateFriendStatus((user, target), Blocked, f);
          return;
        }
        r := DeleteFriendship(existing.value, f);
        if r.Err? {
          return;
        }
      }
      var ok := CreateFriendRequest((user, target), f);
      if !ok {
        return Err(StoreError);
      }
      r := UpdateFriendStatus((user, target), Blocked, f);
    }

    method UnblockUser(user: int, target: int, f: Faults) returns (r: Outcome)
      requires Valid()
      modifies this
      ensures Valid() && ops == old(ops) + [Unblock(user, target, f)]
      ensures (friends, r) == Friends.UnblockUser(old(friends), user, target, f)
    {
      LastStep(ops, Unblock(user, target, f));
      ops := ops + [Unblock(user, target, f)];
      var existing := QueryFriendship(user, target, f);
      if existing.None? || friends[existing.value] != Blocked || existing.value.0 != user {
        return Err(NotBlocked);
      }
      r := DeleteFriendship((user, target), f);
    }
  }
}
