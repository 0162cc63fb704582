/**
 The room tables: direct-message rooms with the canonical key of a pair of
 users, printed in decimal, creation that is deduplicated by it, and what the
 other room operations do to rooms and members.
 */
module Rooms {
  import opened Common

  // ---- Decimal printing ----

  function Digits(n: nat): (s: string)
    ensures s != [] && AllDigits(s)
  {
    if n < 10 then [DigitChar(n)] else Digits(n / 10) + [DigitChar(n % 10)]
  }

  function DigitChar(d: int): char
    requires 0 <= d < 10
  {
    ('0' as int + d) as char
  }

  predicate AllDigits(s: string) {
    forall i :: 0 <= i < |s| ==> '0' <= s[i] <= '9'
  }

  /** %d */
  function Print(n: int): string {
    if n < 0 then ['-'] + Digits(-n) else Digits(n)
  }

  function ParseDigits(s: string): int
    requires AllDigits(s)
  {
    if s == [] then 0 else 10 * ParseDigits(s[..|s| - 1]) + (s[|s| - 1] as int - '0' as int)
  }

  function Parse(s: string): Option<int> {
    if s != [] && s[0] == '-' && AllDigits(s[1..]) then Some(-ParseDigits(s[1..]))
    else if AllDigits(s) then Some(ParseDigits(s))
    else None
  }

  lemma {:induction false} DigitsRoundTrip(n: nat)
    ensures ParseDigits(Digits(n)) == n
  {
    if n >= 10 {
      DigitsRoundTrip(n / 10);
      assert Digits(n)[..|Digits(n)| - 1] == Digits(n / 10);
    } else {
      assert Digits(n)[..0] == [];
    }
  }

  lemma DigitsHaveNo(s: string, c: char)
    requires AllDigits(s) && !('0' <= c <= '9')
    ensures c !in s
  {}

  lemma PrintRoundTrip(n: int)
    ensures Parse(Print(n)) == Some(n)
    ensures ':' !in Print(n)
  {
    var ds := Digits(if n < 0 then -n else n);
    DigitsRoundTrip(if n < 0 then -n else n);
    DigitsHaveNo(ds, ':');
    if n < 0 {
      assert (['-'] + ds)[1..] == ds;
    } else {
      assert ds[0] != '-';
    }
  }

  // ---- The key ----

  /** dm:%d:%d */
  function Key(a: int, b: int): string {
    ['d', 'm', ':'] + (Print(a) + [':'] + Print(b))
  }

  /** dm-%d-%d */
  function RoomName(a: int, b: int): string {
    ['d', 'm', '-'] + (Print(a) + ['-'] + Print(b))
  }

  function DirectKey(u: int, v: int): string {
    if u < v then Key(u, v) else Key(v, u)
  }

  lemma SplitUnique(x: string, y: string, x': string, y': string, sep: char)
    requires sep !in x && sep !in x' && x + [sep] + y == x' + [sep] + y'
    ensures x == x' && y == y'
  {
    var s := x + [sep] + y;
    assert s[|x|] == sep && s[|x'|] == sep;
    assert x == s[..|x|] && x' == s[..|x'|];
    assert y == s[|x| + 1..] && y' == s[|x'| + 1..];
  }

  lemma PrintInjective(a: int, b: int)
    requires Print(a) == Print(b)
    ensures a == b
  {
    PrintRoundTrip(a);
    PrintRoundTrip(b);
  }

  lemma KeyInjective(a: int, b: int, c: int, d: int)
    requires Key(a, b) == Key(c, d)
    ensures a == c && b == d
  {
    PrintRoundTrip(a); PrintRoundTrip(b); PrintRoundTrip(c); PrintRoundTrip(d);
    assert Key(a, b)[3..] == Print(a) + [':'] + Print(b);
    assert Key(c, d)[3..] == Print(c) + [':'] + Print(d);
    SplitUnique(Print(a), Print(b), Print(c), Print(d), ':');
  }

  /** Two pairs of users share a key exactly when they are the same unordered pair. */
  lemma DirectKeyIff(u: int, v: int, x: int, y: int)
    ensures DirectKey(u, v) == DirectKey(x, y) <==> (u == x && v == y) || (u == y && v == x)
  {
    if DirectKey(u, v) == DirectKey(x, y) {
      var a, b := if u < v then u else v, if u < v then v else u;
      var c, d := if x < y then x else y, if x < y then y else x;
      KeyInjective(a, b, c, d);
    }
  }

  lemma SignShows(a: int, rest: string)
    ensures var s, ds := Print(a) + ['-'] + rest, Digits(Abs(a));
            && (s[0] == '-' <==> a < 0)
            && (if a < 0 then s[1..] else s) == ds + ['-'] + rest
            && '-' !in ds
  {
    DigitsHaveNo(Digits(Abs(a)), '-');
  }

  /** The sign of the first number can be told from the separator, so names are injective too. */
  lemma RoomNameInjective(a: int, b: int, c: int, d: int)
    requires RoomName(a, b) == RoomName(c, d)
    ensures a == c && b == d
  {
    var s, s' := Print(a) + ['-'] + Print(b), Print(c) + ['-'] + Print(d);
    assert s == RoomName(a, b)[3..] && s' == RoomName(c, d)[3..];
    SignShows(a, Print(b));
    SignShows(c, Print(d));
    SplitUnique(Digits(Abs(a)), Print(b), Digits(Abs(c)), Print(d), '-');
    DigitsRoundTrip(Abs(a));
    DigitsRoundTrip(Abs(c));
    PrintInjective(b, d);
  }

  function Abs(n: int): nat {
    if n < 0 then -n else n
  }

  function PairName(u: int, v: int): string {
    if u < v then RoomName(u, v) else RoomName(v, u)
  }

  // ---- The tables ----

  datatype Kind = Public | Private | Direct | Channel

  datatype Row = Row(name: string, kind: Kind, owner: Option<int>, key: Option<string>)

  /** Rooms by id, and the membership relation (user_id, room_id). */
  datatype Tables = Tables(rooms: map<int, Row>, members: set<(int, int)>, nextId: int)

  datatype Faults = Faults(
    lookup: bool, begin: bool, insert: bool, firstMember: bool, secondMember: bool, commit: bool, readback: bool)

  datatype Error = SameUser | StoreError

  predicate NameTaken(t: Tables, name: string) {
    exists id :: id in t.rooms && t.rooms[id].name == name
  }

  /** A possible answer of the lookup by direct key. */
  predicate KeyAnswer(t: Tables, key: string, found: Option<int>) {
    match found
    case Some(id) => id in t.rooms && t.rooms[id].key == Some(key)
    case None => forall id :: id in t.rooms ==> t.rooms[id].key != Some(key)
  }

  /** The lookup, then room and both members in one transaction, then the read-back. */
  function CreateDirect(t: Tables, found: Option<int>, key: string, a: int, b: int, f: Faults)
    : (Tables, Result<int, Error>)
  {
    if f.lookup then (t, Err(StoreError))
    else if found.Some? then (t, Ok(found.value))
    else if f.begin || f.insert || NameTaken(t, RoomName(a, b)) || f.firstMember || f.secondMember || f.commit
    then (t, Err(StoreError))
    else
      var id := t.nextId;
      (Tables(t.rooms[id := Row(RoomName(a, b), Direct, None, Some(key))], t.members + {(a, id), (b, id)}, id + 1),
       if f.readback then Err(StoreError) else Ok(id))
  }

  /** The handler: the two ids in ascending order. */
  function HandlerCreates(t: Tables, found: Option<int>, u: int, v: int, f: Faults): (Tables, Result<int, Error>) {
    if u == v then (t, Err(SameUser))
    else if u < v then CreateDirect(t, found, DirectKey(u, v), u, v, f)
    else CreateDirect(t, found, DirectKey(u, v), v, u, f)
  }

  /** The room endpoints. Join refuses private rooms only; Add and Remove are for the room's owner.
      An operation that fails in the store changes nothing, except that the creator of a private
      room may not have been added (`addFails`). */
  datatype Op =
    | DirectMessage(found: Option<int>, u: int, v: int, f: Faults)
    | Create(name: string, private: bool, owner: int, addFails: bool)
    | Join(user: int, room: int)
    | Leave(user: int, room: int)
    | Add(owner: int, user: int, room: int)
    | Remove(owner: int, user: int, room: int)

  function CreateRoom(t: Tables, name: string, private: bool, owner: int, addFails: bool): Tables {
    if NameTaken(t, name) then t
    else
      var id := t.nextId;
      Tables(t.rooms[id := Row(name, if private then Private else Public, Some(owner), None)],
             if private && !addFails then t.members + {(owner, id)} else t.members,
             id + 1)
  }

  predicate Owns(t: Tables, owner: int, room: int) {
    room in t.rooms && t.rooms[room].owner == Some(owner)
  }

  function Step(t: Tables, op: Op): Tables {
    match op
    case DirectMessage(found, u, v, f) => HandlerCreates(t, found, u, v, f).0
    case Create(name, private, owner, addFails) => CreateRoom(t, name, private, owner, addFails)
    case Join(u, r) => if r in t.rooms && t.rooms[r].kind != Private then t.(members := t.members + {(u, r)}) else t
    case Leave(u, r) => t.(members := t.members - {(u, r)})
    case Add(o, u, r) => if Owns(t, o, r) then t.(members := t.members + {(u, r)}) else t
    case Remove(o, u, r) => if Owns(t, o, r) then t.(members := t.members - {(u, r)}) else t
  }

  predicate Legal(t: Tables, op: Op) {
    op.DirectMessage? ==> KeyAnswer(t, DirectKey(op.u, op.v), op.found)
  }

  function Exec(t: Tables, ops: seq<Op>): Tables {
    if ops == [] then t else Step(Exec(t, ops[..|ops| - 1]), ops[|ops| - 1])
  }

  predicate LegalRun(t: Tables, ops: seq<Op>) {
    ops == [] || (LegalRun(t, ops[..|ops| - 1]) && Legal(Exec(t, ops[..|ops| - 1]), ops[|ops| - 1]))
  }

  lemma RunAppend(t: Tables, ops: seq<Op>, op: Op)
    ensures Exec(t, ops + [op]) == Step(Exec(t, ops), op)
    ensures LegalRun(t, ops + [op]) <==> LegalRun(t, ops) && Legal(Exec(t, ops), op)
  {
    assert (ops + [op])[..|ops|] == ops;
  }

  /** A direct room carries name and key of one pair, and no owner; no other room has a key. */
  ghost predicate RowOk(row: Row) {
    if row.kind == Direct then row.owner.None? && exists a, b :: IsPairRow(row, a, b) else row.key.None?
  }

  predicate IsPairRow(row: Row, a: int, b: int) {
    a < b && row.name == RoomName(a, b) && row.key == Some(Key(a, b))
  }

  /** Ids grow, and names are unique. Since name and key of a direct room go together, so are keys. */
  ghost predicate Inv(t: Tables) {
    && (forall id :: IdOk(t, id))
    && (forall x, y :: NamesApart(t, x, y))
    && (forall u, id :: MemberOk(t, u, id))
  }

  ghost predicate IdOk(t: Tables, id: int) {
    id in t.rooms ==> id < t.nextId && RowOk(t.rooms[id])
  }

  predicate NamesApart(t: Tables, x: int, y: int) {
    x in t.rooms && y in t.rooms && t.rooms[x].name == t.rooms[y].name ==> x == y
  }

  predicate MemberOk(t: Tables, u: int, id: int) {
    (u, id) in t.members ==> id in t.rooms
  }

  lemma KeysUnique(t: Tables, x: int, y: int, key: string)
    requires Inv(t) && KeyAnswer(t, key, Some(x)) && KeyAnswer(t, key, Some(y))
    ensures x == y && t.rooms[x].kind == Direct
  {
    assert IdOk(t, x) && IdOk(t, y) && NamesApart(t, x, y);
    var a, b :| IsPairRow(t.rooms[x], a, b);
    var c, d :| IsPairRow(t.rooms[y], c, d);
    KeyInjective(a, b, c, d);
  }

  lemma NextIsNew(t: Tables)
    requires Inv(t)
    ensures t.nextId !in t.rooms
  {
    assert IdOk(t, t.nextId);
  }

  lemma NewRoomKeeps(t: Tables, t': Tables, row: Row)
    requires Inv(t) && RowOk(row) && !NameTaken(t, row.name)
    requires t'.rooms == t.rooms[t.nextId := row] && t'.nextId == t.nextId + 1
    requires forall u, id :: (u, id) in t'.members ==> (u, id) in t.members || id == t.nextId
    ensures Inv(t') && RowsKept(t, t')
  {
    NextIsNew(t);
    forall id ensures IdOk(t', id) {
      assert IdOk(t, id);
    }
    forall x, y ensures NamesApart(t', x, y) {
      assert NamesApart(t, x, y);
    }
    forall u, id ensures MemberOk(t', u, id) {
      assert MemberOk(t, u, id);
    }
  }

  /** Only members changed, and only of stored rooms. */
  lemma MembersKeep(t: Tables, t': Tables)
    requires Inv(t) && t' == t.(members := t'.members)
    requires forall u, id :: (u, id) in t'.members ==> (u, id) in t.members || id in t.rooms
    ensures Inv(t') && RowsKept(t, t')
  {
    forall id ensures IdOk(t', id) {
      assert IdOk(t, id);
    }
    forall x, y ensures NamesApart(t', x, y) {
      assert NamesApart(t, x, y);
    }
    forall u, id ensures MemberOk(t', u, id) {
      assert MemberOk(t, u, id);
    }
  }

  lemma StepKeeps(t: Tables, op: Op)
    requires Inv(t) && Legal(t, op)
    ensures Inv(Step(t, op)) && RowsKept(t, Step(t, op))
  {
    var t' := Step(t, op);
    match op
    case DirectMessage(found, u, v, f) =>
      var a, b := if u < v then u else v, if u < v then v else u;
      var row := Row(RoomName(a, b), Direct, None, Some(Key(a, b)));
      assert u != v ==> IsPairRow(row, a, b);
      if t' != t {
        NewRoomKeeps(t, t', row);
      }
    case Create(name, private, owner, _) =>
      if t' != t {
        NewRoomKeeps(t, t', Row(name, if private then Private else Public, Some(owner), None));
      }
    case Join(_, _) => MembersKeep(t, t');
    case Leave(_, _) => MembersKeep(t, t');
    case Add(_, _, _) => MembersKeep(t, t');
    case Remove(_, _, _) => MembersKeep(t, t');
  }

  predicate RowKept(t: Tables, t': Tables, id: int) {
    id in t.rooms ==> id in t'.rooms && t'.rooms[id] == t.rooms[id]
  }

  /** No stored room changes or disappears. */
  ghost predicate RowsKept(t: Tables, t': Tables) {
    forall id :: RowKept(t, t', id)
  }

  /** In every run: the invariant holds and no stored room changes. */
  lemma {:induction false} RunKeeps(t: Tables, ops: seq<Op>)
    requires Inv(t) && LegalRun(t, ops)
    ensures Inv(Exec(t, ops)) && RowsKept(t, Exec(t, ops))
  {
    if ops != [] {
      var pre := Exec(t, ops[..|ops| - 1]);
      RunKeeps(t, ops[..|ops| - 1]);
      StepKeeps(pre, ops[|ops| - 1]);
      forall id ensures RowKept(t, Exec(t, ops), id) {
        assert RowKept(t, pre, id) && RowKept(pre, Exec(t, ops), id);
      }
    }
  }

  /** In every run, a pair of users has at most one direct room, whichever order names it. */
  lemma OneRoomPerPair(t: Tables, ops: seq<Op>, x: int, y: int, u: int, v: int)
    requires Inv(t) && LegalRun(t, ops)
    requires KeyAnswer(Exec(t, ops), DirectKey(u, v), Some(x)) && KeyAnswer(Exec(t, ops), DirectKey(v, u), Some(y))
    ensures x == y
  {
    RunKeeps(t, ops);
    DirectKeyIff(u, v, v, u);
    KeysUnique(Exec(t, ops), x, y, DirectKey(u, v));
  }

  /** Creation does not depend on who asks. */
  lemma CreationIsSymmetric(t: Tables, found: Option<int>, u: int, v: int, f: Faults)
    ensures HandlerCreates(t, found, u, v, f) == HandlerCreates(t, found, v, u, f)
    ensures KeyAnswer(t, DirectKey(u, v), found) <==> KeyAnswer(t, DirectKey(v, u), found)
  {
    DirectKeyIff(u, v, v, u);
  }

  /** Creation changes nothing or everything: the room under the pair's key and both members. */
  lemma CreationIsAtomic(t: Tables, found: Option<int>, u: int, v: int, f: Faults)
    requires Inv(t) && KeyAnswer(t, DirectKey(u, v), found)
    ensures var (t', r) := HandlerCreates(t, found, u, v, f);
            && (t' == t || (&& t.nextId !in t.rooms
                            && KeyAnswer(t', DirectKey(u, v), Some(t.nextId))
                            && t'.rooms == t.rooms[t.nextId := t'.rooms[t.nextId]]
                            && t'.members == t.members + {(u, t.nextId), (v, t.nextId)}))
            && (r.Ok? ==> KeyAnswer(t', DirectKey(u, v), Some(r.value)))
            && (t' != t ==> found.None? && !f.commit && (r.Ok? <==> !f.readback))
  {
    NextIsNew(t);
  }

  /** A step of the transaction fails. */
  predicate TransactionFails(f: Faults) {
    f.begin || f.insert || f.firstMember || f.secondMember || f.commit
  }

  /** Who gets a direct room, and what is then stored. Nobody shares one with oneself; a room that the
      lookup finds is returned; otherwise one is stored under the pair's name and key, with both as
      members, exactly if no ordinary room bears the name and the transaction goes through. */
  lemma CreationDoes(t: Tables, found: Option<int>, u: int, v: int, f: Faults)
    requires Inv(t) && KeyAnswer(t, DirectKey(u, v), found)
    ensures var (t', r) := HandlerCreates(t, found, u, v, f);
            var stores := u != v && !f.lookup && found.None? && !NameBlocked(t, u, v) && !TransactionFails(f);
            && (u == v ==> r == Err(SameUser))
            && (r.Ok? <==> (u != v && !f.lookup && found.Some?) || (stores && !f.readback))
            && (r.Ok? ==> r.value == if found.Some? then found.value else t.nextId)
            && t'.nextId == (if stores then t.nextId + 1 else t.nextId)
            && (if stores
                then && t'.rooms == t.rooms[t.nextId := Row(PairName(u, v), Direct, None, Some(DirectKey(u, v)))]
                     && t'.members == t.members + {(u, t.nextId), (v, t.nextId)}
                else t'.rooms == t.rooms && t'.members == t.members)
  {
    if u != v && found.None? {
      NameTakenIff(t, u, v);
    }
  }

  /** While the pair has no room, only an ordinary room can bear its name. */
  lemma NameTakenIff(t: Tables, u: int, v: int)
    requires Inv(t) && KeyAnswer(t, DirectKey(u, v), None) && u != v
    ensures NameTaken(t, PairName(u, v)) <==> NameBlocked(t, u, v)
  {
    forall id | id in t.rooms && t.rooms[id].kind == Direct ensures t.rooms[id].name != PairName(u, v) {
      KeyAndName(t, id, u, v);
    }
  }

  /** Once created, the pair's room is what every later creation by either user returns, in any
      later state of the tables, without changing them. */
  lemma CreationIsIdempotent(t: Tables, ops: seq<Op>, id: int, found: Option<int>, u: int, v: int, f: Faults)
    requires Inv(t) && KeyAnswer(t, DirectKey(u, v), Some(id)) && u != v && LegalRun(t, ops)
    requires KeyAnswer(Exec(t, ops), DirectKey(v, u), found) && !f.lookup
    ensures HandlerCreates(Exec(t, ops), found, v, u, f) == (Exec(t, ops), Ok(id))
  {
    RunKeeps(t, ops);
    DirectKeyIff(u, v, v, u);
    assert RowKept(t, Exec(t, ops), id);
    assert KeyAnswer(Exec(t, ops), DirectKey(u, v), Some(id));
    if found.Some? {
      KeysUnique(Exec(t, ops), id, found.value, DirectKey(u, v));
    }
  }

  // ---- When creation succeeds ----

  /** An ordinary room already has the name that the pair's direct room would get. */
  predicate NameBlocked(t: Tables, u: int, v: int) {
    exists id :: id in t.rooms && t.rooms[id].name == PairName(u, v) && t.rooms[id].kind != Direct
  }

  lemma PairRowIs(row: Row, a: int, b: int, u: int, v: int)
    requires IsPairRow(row, a, b) && u != v
    ensures row.key == Some(DirectKey(u, v)) <==> row.name == PairName(u, v)
  {
    var c, d := if u < v then u else v, if u < v then v else u;
    if row.key == Some(Key(c, d)) {
      KeyInjective(a, b, c, d);
    }
    if row.name == RoomName(c, d) {
      RoomNameInjective(a, b, c, d);
    }
  }

  lemma KeyAndName(t: Tables, id: int, u: int, v: int)
    requires Inv(t) && id in t.rooms && u != v
    ensures t.rooms[id].key == Some(DirectKey(u, v))
            <==> t.rooms[id].kind == Direct && t.rooms[id].name == PairName(u, v)
  {
    assert IdOk(t, id);
    if t.rooms[id].kind == Direct {
      var a, b :| IsPairRow(t.rooms[id], a, b);
      PairRowIs(t.rooms[id], a, b, u, v);
    }
  }

  /** With the store working, two users get their direct room exactly when no ordinary room bears its
      name. Names are chosen freely, so this can fail. */
  lemma CreationSucceedsIff(t: Tables, found: Option<int>, u: int, v: int)
    requires Inv(t) && KeyAnswer(t, DirectKey(u, v), found) && u != v
    ensures HandlerCreates(t, found, u, v, FINE).1.Ok? <==> !NameBlocked(t, u, v)
  {
    forall id | id in t.rooms
      ensures t.rooms[id].key == Some(DirectKey(u, v))
              <==> t.rooms[id].kind == Direct && t.rooms[id].name == PairName(u, v)
    {
      KeyAndName(t, id, u, v);
    }
    if found.None? && !NameBlocked(t, u, v) {
      assert !NameTaken(t, PairName(u, v));
    }
    forall id | found.Some? && id in t.rooms && t.rooms[id].name == PairName(u, v) ensures id == found.value {
      assert NamesApart(t, id, found.value);
    }
  }

  const FINE := Faults(false, false, false, false, false, false, false)

  /** Once the name is taken by an ordinary room, creation fails for both users for ever. */
  lemma BlockedForEver(t: Tables, ops: seq<Op>, found: Option<int>, u: int, v: int)
    requires Inv(t) && NameBlocked(t, u, v) && u != v && LegalRun(t, ops)
    requires KeyAnswer(Exec(t, ops), DirectKey(u, v), found)
    ensures HandlerCreates(Exec(t, ops), found, u, v, FINE) == (Exec(t, ops), Err(StoreError))
  {
    RunKeeps(t, ops);
    var id :| id in t.rooms && t.rooms[id].name == PairName(u, v) && t.rooms[id].kind != Direct;
    assert RowKept(t, Exec(t, ops), id);
    CreationSucceedsIff(Exec(t, ops), found, u, v);
  }

  /** An ordinary room of that name is all it takes. */
  lemma NameCanBeBlocked(u: int, v: int, owner: int)
    requires u != v
    ensures LegalRun(EMPTY, [Create(PairName(u, v), false, owner, false)])
    ensures NameBlocked(Exec(EMPTY, [Create(PairName(u, v), false, owner, false)]), u, v)
  {
    var op := Create(PairName(u, v), false, owner, false);
    assert [op][..0] == [];
    assert Exec(EMPTY, [op]) == Step(EMPTY, op);
    assert 1 in Step(EMPTY, op).rooms;
  }

  // ---- Members of a direct room ----

  /** The operation makes m a member of room id: it creates the room as m's direct or private room, lets
      m into a stored room that is not private through the join endpoint, or the room's owner adds m. */
  predicate Adds(t: Tables, op: Op, m: int, id: int) {
    match op
    case Join(u, r) => u == m && r == id && id in t.rooms && t.rooms[id].kind != Private
    case Add(o, u, r) => u == m && r == id && id in t.rooms && t.rooms[id].owner == Some(o)
    case DirectMessage(_, u, v, _) => id !in t.rooms && id in Step(t, op).rooms && (m == u || m == v)
    case Create(_, private, o, addFails) =>
      id !in t.rooms && id in Step(t, op).rooms && private && o == m && !addFails
    case _ => false
  }

  /** The operation takes m out of room id: m leaves, or the room's owner removes m. */
  predicate Drops(t: Tables, op: Op, m: int, id: int) {
    match op
    case Leave(u, r) => u == m && r == id
    case Remove(o, u, r) => u == m && r == id && id in t.rooms && t.rooms[id].owner == Some(o)
    case _ => false
  }

  /** Being a member of a room, from one step to the next. */
  lemma MemberAfter(t: Tables, op: Op, m: int, id: int)
    requires Inv(t) && Legal(t, op)
    ensures (m, id) in Step(t, op).members <==> Adds(t, op, m, id) || ((m, id) in t.members && !Drops(t, op, m, id))
  {
    NextIsNew(t);
    assert MemberOk(t, m, id);
  }

  ghost predicate AddsAt(t: Tables, ops: seq<Op>, k: nat, m: int, id: int) {
    k < |ops| && Adds(Exec(t, ops[..k]), ops[k], m, id)
  }

  ghost predicate DropsAt(t: Tables, ops: seq<Op>, k: nat, m: int, id: int) {
    k < |ops| && Drops(Exec(t, ops[..k]), ops[k], m, id)
  }

  ghost predicate StaysFrom(t: Tables, ops: seq<Op>, n: nat, m: int, id: int) {
    forall k: nat :: n <= k ==> !DropsAt(t, ops, k, m, id)
  }

  /** m was added by step k and has not been taken out since. */
  ghost predicate AddedAndStays(t: Tables, ops: seq<Op>, k: nat, m: int, id: int) {
    AddsAt(t, ops, k, m, id) && StaysFrom(t, ops, k + 1, m, id)
  }

  ghost predicate IsIn(t: Tables, ops: seq<Op>, m: int, id: int) {
    exists k: nat :: AddedAndStays(t, ops, k, m, id)
  }

  lemma StaysAppend(t: Tables, pre: seq<Op>, op: Op, n: nat, m: int, id: int)
    requires n <= |pre|
    ensures StaysFrom(t, pre + [op], n, m, id) <==> StaysFrom(t, pre, n, m, id) && !Drops(Exec(t, pre), op, m, id)
  {
    var ops := pre + [op];
    assert ops[..|pre|] == pre;
    forall k: nat | k < |pre| ensures DropsAt(t, ops, k, m, id) <==> DropsAt(t, pre, k, m, id) {
      assert ops[..k] == pre[..k];
    }
    if StaysFrom(t, ops, n, m, id) {
      assert !DropsAt(t, ops, |pre|, m, id);
      forall k: nat | n <= k ensures !DropsAt(t, pre, k, m, id) {
        assert !DropsAt(t, ops, k, m, id);
      }
    } else {
      var k: nat :| n <= k && DropsAt(t, ops, k, m, id);
      assert k < |pre| ==> DropsAt(t, pre, k, m, id);
    }
  }

  lemma AddedAppend(t: Tables, pre: seq<Op>, op: Op, m: int, id: int)
    ensures IsIn(t, pre + [op], m, id)
            <==> Adds(Exec(t, pre), op, m, id) || (!Drops(Exec(t, pre), op, m, id) && IsIn(t, pre, m, id))
  {
    var ops, n := pre + [op], |pre|;
    assert ops[..n] == pre;
    forall k: nat | k < n
      ensures AddedAndStays(t, ops, k, m, id)
              <==> AddedAndStays(t, pre, k, m, id) && !Drops(Exec(t, pre), op, m, id)
    {
      assert ops[..k] == pre[..k];
      StaysAppend(t, pre, op, k + 1, m, id);
    }
    assert AddedAndStays(t, ops, n, m, id) <==> Adds(Exec(t, pre), op, m, id);
    if k: nat :| AddedAndStays(t, ops, k, m, id) {
      assert k < n ==> AddedAndStays(t, pre, k, m, id);
    }
    if k: nat :| AddedAndStays(t, pre, k, m, id) && !Drops(Exec(t, pre), op, m, id) {
      assert AddedAndStays(t, ops, k, m, id);
    }
  }

  /** m is a member exactly if some step made m one, or m was one at the start, and none took m out since. */
  ghost predicate MemberTold(t: Tables, ops: seq<Op>, m: int, id: int) {
    (m, id) in Exec(t, ops).members
    <==> IsIn(t, ops, m, id) || ((m, id) in t.members && StaysFrom(t, ops, 0, m, id))
  }

  lemma ToldAtStart(t: Tables, m: int, id: int)
    ensures MemberTold(t, [], m, id)
  {}

  lemma ToldNext(t: Tables, pre: seq<Op>, op: Op, m: int, id: int)
    requires Inv(t) && LegalRun(t, pre) && Legal(Exec(t, pre), op) && MemberTold(t, pre, m, id)
    ensures MemberTold(t, pre + [op], m, id)
  {
    RunKeeps(t, pre);
    RunAppend(t, pre, op);
    MemberAfter(Exec(t, pre), op, m, id);
    AddedAppend(t, pre, op, m, id);
    StaysAppend(t, pre, op, 0, m, id);
  }

  lemma {:induction false} RunTold(t: Tables, ops: seq<Op>, m: int, id: int)
    requires Inv(t) && LegalRun(t, ops)
    ensures MemberTold(t, ops, m, id)
  {
    if ops == [] {
      ToldAtStart(t, m, id);
    } else {
      var pre, op := ops[..|ops| - 1], ops[|ops| - 1];
      RunTold(t, pre, m, id);
      ToldNext(t, pre, op, m, id);
      assert pre + [op] == ops;
    }
  }

  /** In every run, from any tables: a user is a member of a room exactly if some step made the user one,
      or the user was one from the start, and no step has taken the user out since. */
  lemma MembersExactly(t: Tables, ops: seq<Op>, m: int, id: int)
    requires Inv(t) && LegalRun(t, ops)
    ensures (m, id) in Exec(t, ops).members
            <==> IsIn(t, ops, m, id) || ((m, id) in t.members && StaysFrom(t, ops, 0, m, id))
  {
    RunTold(t, ops, m, id);
  }

  /** From any point of a run on, stored rooms neither change nor disappear. */
  lemma {:induction false} KeptSince(t: Tables, ops: seq<Op>, n: nat, id: int)
    requires Inv(t) && LegalRun(t, ops) && n <= |ops|
    ensures RowKept(Exec(t, ops[..n]), Exec(t, ops), id)
  {
    if n == |ops| {
      assert ops[..n] == ops;
    } else {
      var pre := ops[..|ops| - 1];
      assert pre[..n] == ops[..n];
      KeptSince(t, pre, n, id);
      RunKeeps(t, pre);
      StepKeeps(Exec(t, pre), ops[|ops| - 1]);
      assert RowKept(Exec(t, pre), Exec(t, ops), id);
    }
  }

  lemma {:induction false} PrefixLegal(t: Tables, ops: seq<Op>, k: nat)
    requires LegalRun(t, ops) && k < |ops|
    ensures LegalRun(t, ops[..k]) && Legal(Exec(t, ops[..k]), ops[k])
    ensures Exec(t, ops[..k + 1]) == Step(Exec(t, ops[..k]), ops[k])
  {
    var pre := ops[..|ops| - 1];
    if k < |pre| {
      PrefixLegal(t, pre, k);
      assert pre[..k] == ops[..k] && pre[..k + 1] == ops[..k + 1];
    } else {
      assert ops[..k + 1] == ops && ops[..k] == pre;
    }
  }

  lemma AddsStores(t: Tables, op: Op, m: int, id: int)
    requires Inv(t) && Legal(t, op) && Adds(t, op, m, id)
    ensures id in Step(t, op).rooms
  {
    StepKeeps(t, op);
    assert RowKept(t, Step(t, op), id);
  }

  /** A room that somebody was added to was stored then, and is the same now. */
  lemma StoredWhenAdded(t: Tables, ops: seq<Op>, k: nat, m: int, id: int)
    requires Inv(t) && LegalRun(t, ops) && AddsAt(t, ops, k, m, id)
    ensures var t1 := Step(Exec(t, ops[..k]), ops[k]);
            id in t1.rooms && id in Exec(t, ops).rooms && Exec(t, ops).rooms[id] == t1.rooms[id]
  {
    PrefixLegal(t, ops, k);
    RunKeeps(t, ops[..k]);
    AddsStores(Exec(t, ops[..k]), ops[k], m, id);
    KeptSince(t, ops, k + 1, id);
  }

  /** What made m a member of a private room, or took m out: its owner's creating, adding and removing,
      and m's own leaving. The join endpoint did not. */
  lemma PrivateMembersByOwner(t: Tables, ops: seq<Op>, k: nat, m: int, id: int)
    requires Inv(t) && LegalRun(t, ops) && id in Exec(t, ops).rooms && Exec(t, ops).rooms[id].kind == Private
    ensures AddsAt(t, ops, k, m, id) ==>
              var owner := Exec(t, ops).rooms[id].owner;
              (ops[k].Create? && owner == Some(m)) || (ops[k].Add? && owner == Some(ops[k].owner) && ops[k].user == m)
    ensures DropsAt(t, ops, k, m, id) ==>
              ops[k] == Leave(m, id) || (ops[k].Remove? && Exec(t, ops).rooms[id].owner == Some(ops[k].owner))
  {
    if k < |ops| {
      PrefixLegal(t, ops, k);
      RunKeeps(t, ops[..k]);
      KeptSince(t, ops, k, id);
      KeptSince(t, ops, k + 1, id);
      PrivateStep(Exec(t, ops[..k]), ops[k], m, id);
    }
  }

  lemma PrivateStep(t: Tables, op: Op, m: int, id: int)
    requires Inv(t) && Legal(t, op)
    ensures Adds(t, op, m, id) ==>
              && id in Step(t, op).rooms
              && var row := Step(t, op).rooms[id];
                 row.kind == Private ==>
                   (op.Create? && row.owner == Some(m)) || (op.Add? && row.owner == Some(op.owner) && op.user == m)
    ensures Drops(t, op, m, id) ==>
              op == Leave(m, id) || (op.Remove? && id in t.rooms && t.rooms[id].owner == Some(op.owner))
  {
    StepKeeps(t, op);
    assert RowKept(t, Step(t, op), id);
    if id !in t.rooms && id in Step(t, op).rooms {
      CreatedRow(t, op, id);
    }
  }

  /** A room that a step stores is what was asked for. */
  lemma CreatedRow(t: Tables, op: Op, id: int)
    requires Inv(t) && Legal(t, op) && id !in t.rooms && id in Step(t, op).rooms
    ensures id == t.nextId
    ensures match op
            case Create(name, private, owner, _) =>
              Step(t, op).rooms[id] == Row(name, if private then Private else Public, Some(owner), None)
            case DirectMessage(_, u, v, _) =>
              Step(t, op).rooms[id] == Row(PairName(u, v), Direct, None, Some(DirectKey(u, v)))
            case _ => false
  {}

  /** Creating an ordinary room stores it exactly if its name is free; its creator becomes a member
      exactly if the room is private and that write works. */
  lemma CreateDoes(t: Tables, name: string, private: bool, owner: int, addFails: bool)
    requires Inv(t)
    ensures var t' := Step(t, Create(name, private, owner, addFails));
            if NameTaken(t, name) then t' == t
            else
              && t.nextId !in t.rooms && t'.nextId == t.nextId + 1
              && t'.rooms == t.rooms[t.nextId := Row(name, if private then Private else Public, Some(owner), None)]
              && t'.members == t.members + if private && !addFails then {(owner, t.nextId)} else {}
  {
    NextIsNew(t);
  }

  /** For a direct room: made for the user, or joined through the join endpoint, or there from the start,
      and not left since. */
  lemma DirectMembersExactly(t: Tables, ops: seq<Op>, m: int, id: int)
    requires Inv(t) && LegalRun(t, ops) && id in Exec(t, ops).rooms && Exec(t, ops).rooms[id].kind == Direct
    ensures (m, id) in Exec(t, ops).members
            <==> IsIn(t, ops, m, id) || ((m, id) in t.members && StaysFrom(t, ops, 0, m, id))
    ensures forall k: nat :: AddsAt(t, ops, k, m, id) ==> ops[k].DirectMessage? || ops[k] == Join(m, id)
    ensures forall k: nat :: DropsAt(t, ops, k, m, id) ==> ops[k] == Leave(m, id)
  {
    MembersExactly(t, ops, m, id);
    forall k: nat
      ensures AddsAt(t, ops, k, m, id) ==> ops[k].DirectMessage? || ops[k] == Join(m, id)
      ensures DropsAt(t, ops, k, m, id) ==> ops[k] == Leave(m, id)
    {
      if k < |ops| {
        DirectStep(t, ops, k, m, id);
      }
    }
  }

  lemma DirectStep(t: Tables, ops: seq<Op>, k: nat, m: int, id: int)
    requires Inv(t) && LegalRun(t, ops) && k < |ops|
    requires id in Exec(t, ops).rooms && Exec(t, ops).rooms[id].kind == Direct
    ensures AddsAt(t, ops, k, m, id) ==> ops[k].DirectMessage? || ops[k] == Join(m, id)
    ensures DropsAt(t, ops, k, m, id) ==> ops[k] == Leave(m, id)
  {
    PrefixLegal(t, ops, k);
    RunKeeps(t, ops[..k]);
    RunKeeps(t, ops);
    KeptSince(t, ops, k, id);
    KeptSince(t, ops, k + 1, id);
    CreatedRowIf(Exec(t, ops[..k]), ops[k], id);
    assert IdOk(Exec(t, ops), id);
  }

  lemma CreatedRowIf(t: Tables, op: Op, id: int)
    requires Inv(t) && Legal(t, op)
    ensures op.Create? && id !in t.rooms && id in Step(t, op).rooms ==> Step(t, op).rooms[id].kind != Direct
  {}

  lemma MadeFor(t: Tables, op: Op, m: int, id: int, u: int, v: int)
    requires Inv(t) && Legal(t, op) && Adds(t, op, m, id) && op.DirectMessage?
    requires KeyAnswer(Step(t, op), DirectKey(u, v), Some(id))
    ensures m == u || m == v
  {
    DirectKeyIff(op.u, op.v, u, v);
  }

  /** Whom a direct room was made for is told by its key. */
  lemma MadeForItsPair(t: Tables, ops: seq<Op>, k: nat, m: int, id: int, u: int, v: int)
    requires Inv(t) && LegalRun(t, ops) && AddsAt(t, ops, k, m, id) && ops[k].DirectMessage?
    requires KeyAnswer(Exec(t, ops), DirectKey(u, v), Some(id))
    ensures m == u || m == v
  {
    StoredWhenAdded(t, ops, k, m, id);
    PrefixLegal(t, ops, k);
    RunKeeps(t, ops[..k]);
    MadeFor(Exec(t, ops[..k]), ops[k], m, id, u, v);
  }

  /** So the members of the direct room of u and v are, of those two, whoever has not left; and others
      only if they used the join endpoint, which refuses private rooms only, or were there before. */
  lemma DirectMembers(t: Tables, ops: seq<Op>, m: int, id: int, u: int, v: int)
    requires Inv(t) && LegalRun(t, ops) && (m, id) in Exec(t, ops).members
    requires KeyAnswer(Exec(t, ops), DirectKey(u, v), Some(id))
    ensures m == u || m == v || (m, id) in t.members || Join(m, id) in ops
  {
    RunKeeps(t, ops);
    KeysUnique(Exec(t, ops), id, id, DirectKey(u, v));
    DirectMembersExactly(t, ops, m, id);
    if (m, id) !in t.members {
      var k: nat :| AddedAndStays(t, ops, k, m, id);
      assert AddsAt(t, ops, k, m, id);
      if ops[k].DirectMessage? {
        MadeForItsPair(t, ops, k, m, id, u, v);
      } else {
        assert ops[k] == Join(m, id);
      }
    }
  }

  /** The join endpoint can add a third user to a direct room. */
  lemma DirectRoomCanGrow(u: int, v: int, m: int)
    requires u != v
    ensures var ops := [DirectMessage(None, u, v, FINE)] + [Join(m, 1)];
            && LegalRun(EMPTY, ops) && KeyAnswer(Exec(EMPTY, ops), DirectKey(u, v), Some(1))
            && (m, 1) in Exec(EMPTY, ops).members
  {
    var o1, o2 := DirectMessage(None, u, v, FINE), Join(m, 1);
    assert ([o1] + [o2])[..1] == [o1] && [o1][..0] == [];
    assert Exec(EMPTY, [o1]) == Step(EMPTY, o1);
    assert Exec(EMPTY, [o1] + [o2]) == Step(Step(EMPTY, o1), o2);
  }

  const EMPTY := Tables(map[], {}, 1)

  // ---- The store and the handler ----

  class RoomStore {
    var rooms: map<int, Row>
    var members: set<(int, int)>
    var nextId: int

    constructor ()
      ensures State() == EMPTY
    {
      rooms, members, nextId := map[], {}, 1;
    }

    ghost function State(): Tables
      reads this
    {
      Tables(rooms, members, nextId)
    }

    method FindByKey(key: string) returns (found: Option<int>)
      ensures KeyAnswer(State(), key, found)
    {
      var id := 0;
      var todo := rooms.Keys;
      while todo != {}
        invariant todo <= rooms.Keys
        invariant forall x :: x in rooms && x !in todo ==> rooms[x].key != Some(key)
        decreases todo
      {
        Inhabited(todo);
        id :| id in todo;
        if rooms[id].key == Some(key) {
          return Some(id);
        }
        todo := todo - {id};
      }
      return None;
    }

    method HasName(name: string) returns (taken: bool)
      ensures taken <==> NameTaken(State(), name)
    {
      var id := 0;
      var todo := rooms.Keys;
      while todo != {}
        invariant todo <= rooms.Keys
        invariant forall x :: x in rooms && x !in todo ==> rooms[x].name != name
        decreases todo
      {
        Inhabited(todo);
        id :| id in todo;
        if rooms[id].name == name {
          assert State().rooms[id].name == name;
          return true;
        }
        todo := todo - {id};
      }
      return false;
    }

    /** Works on copies inside the transaction; only the commit makes them the tables. */
    method CreateDirectRoom(key: string, a: int, b: int, f: Faults) returns (r: Result<int, Error>, found: Option<int>)
      modifies this
      ensures KeyAnswer(old(State()), key, found)
      ensures (State(), r) == CreateDirect(old(State()), found, key, a, b, f)
    {
      found := FindByKey(key);
      r := Err(StoreError);
      if !f.lookup && found.Some? {
        r := Ok(found.value);
      } else if !f.lookup && !f.begin {
        var id, txRooms, txMembers := nextId, rooms, members;
        var taken := HasName(RoomName(a, b));
        var ok := !f.insert && !taken;
        if ok {
          txRooms := txRooms[id := Row(RoomName(a, b), Direct, None, Some(key))];
          ok := !f.firstMember;
        }
        if ok {
          txMembers := txMembers + {(a, id)};
          ok := !f.secondMember;
        }
        if ok {
          txMembers := txMembers + {(b, id)};
          ok := !f.commit;
        }
        if ok {
          assert txMembers == members + {(a, id), (b, id)};
          rooms, members, nextId := txRooms, txMembers, id + 1;
          r := if f.readback then Err(StoreError) else Ok(id);
        }
      }
    }

    method HandleCreateDirect(current: int, other: int, f: Faults) returns (r: Result<int, Error>, found: Option<int>)
      modifies this
      ensures KeyAnswer(old(State()), DirectKey(current, other), found)
      ensures (State(), r) == HandlerCreates(old(State()), found, current, other, f)
    {
      if other == current {
        found := FindByKey(DirectKey(current, other));
        r := Err(SameUser);
      } else {
        var a, b := other, current;
        if current < other {
          a, b := current, other;
        }
        r, found := CreateDirectRoom(Key(a, b), a, b, f);
      }
    }
  }
}
