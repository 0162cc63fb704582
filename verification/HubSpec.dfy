/**
 The chat hub as a state machine over its atomic steps. The state holds what
 the event loop keeps, and, for specification only, one hub-wide log of
 broadcasts and per-client feeds of everything ever queued to a client.
 */
module HubSpec {
  import opened Common
  import opened Messages

  /** Stands for the identity of a *Client. */
  type ClientId = int

  const QUEUE_CAP := 8
  const HISTORY_LEN := 20

  datatype Identity = Identity(userId: int, name: string, isGuest: bool)

  datatype ErrorCode =
    | BadRequest | AlreadyJoined | RoomNotFound | NotInRoom
    | CallsDisabled | Unauthorized | CallError | CallNotFound

  datatype Notice = CallIncoming | CallRinging | CallAccepted | CallRejected | CallEnded

  datatype Event =
    | UserJoined(room: string, user: string)
    | UserLeft(room: string, user: string)
    | RoomMessage(room: string, id: int, from: string, text: string)
    | History(room: string, messages: seq<Row>)
    | Failure(room: string, code: ErrorCode)
    | CallNotice(call: string, kind: Notice)
    | JoinInfo(call: string, media: string, holder: int)   // credentials of a user for a call's media room

  /** One broadcast: its event, who caused it, the row it saved, the room's members, those who got
      it, and how many events each client's writer had taken by then. */
  datatype Entry = Entry(
    room: string, event: Event, who: ClientId, row: Option<Row>,
    members: set<ClientId>, delivered: set<ClientId>, taken: map<ClientId, nat>)

  /** One queued event: a broadcast named by its log position, or an event for this client alone,
      stamped with the length of the log when it was queued. */
  datatype Item = Live(index: nat) | Private(event: Event, at: nat)

  /** Room.clients and Client.Rooms: two indexes of one relation. */
  datatype Membership = Membership(rooms: map<string, set<ClientId>>, joined: map<ClientId, set<string>>)

  /** The broadcast log, each client's feed, and how much of it the client's writer has taken.
      The Events channel of a client holds the part of its feed not yet taken. */
  datatype Logs = Logs(log: seq<Entry>, feed: map<ClientId, seq<Item>>, taken: map<ClientId, nat>)

  /** Stored rooms by name, and the message table. */
  datatype Stored = Stored(roomIds: map<string, int>, table: Table, nextId: int)

  datatype Hub = Hub(
    registered: set<ClientId>,
    spawned: set<ClientId>,     // clients whose command consumer was ever started
    closed: set<ClientId>,      // clients whose Events channel is closed
    userClients: map<int, ClientId>,
    who: map<ClientId, Identity>,
    mem: Membership,
    store: Stored,
    logs: Logs,
    stopped: bool,
    panicked: bool)

  datatype CallRequest =
    | RingUser(to: int) | RingRoom(roomId: int)
    | AcceptCall(call: string) | RejectCall(call: string)
    | JoinCall(call: string) | LeaveCall(call: string) | EndCall(call: string)

  datatype Command =
    | Join(room: string)
    | Leave(room: string)
    | Say(room: string, from: string, text: string)
    | Call(request: CallRequest)

  /** One send of a call command's handler, to its own client or to a user if connected; or a pause
      between two sends in which some client's writer takes an event. */
  datatype Effect = ToSelf(event: Event) | ToUser(user: int, event: Event) | Pause(taker: ClientId)

  /** One turn of the loop over a removed client's rooms; or a moment between two turns in which some
      client's writer takes an event. */
  datatype Stop = Exit(room: string) | Between(taker: ClientId)

  /** How the store and the call service behave during one command. `idRead`: the id of an inserted
      message can be read; `script`: what the handler of a call command sends, in order. */
  datatype Env = Env(present: bool, roomFound: bool, listed: bool, saved: bool, idRead: bool, script: seq<Effect>)

  datatype Action =
    | Register(c: ClientId)
    | Unregister(c: ClientId, order: seq<Stop>)
    | Handle(c: ClientId, cmd: Command, env: Env)
    | Take(c: ClientId)
    | Identify(c: ClientId, identity: Identity)
    | CreateRoom(name: string, id: int)
    | Shutdown

  // ---- Reading the state ----

  function MembersOf(m: Membership, r: string): set<ClientId> {
    if r in m.rooms then m.rooms[r] else {}
  }

  function RoomsOf(m: Membership, c: ClientId): set<string> {
    if c in m.joined then m.joined[c] else {}
  }

  function Feed(l: Logs, c: ClientId): seq<Item> {
    if c in l.feed then l.feed[c] else []
  }

  function Taken(l: Logs, c: ClientId): nat {
    if c in l.taken then l.taken[c] else 0
  }

  function Who(s: Hub, c: ClientId): Identity {
    if c in s.who then s.who[c] else Identity(0, "", false)
  }

  predicate Full(l: Logs, c: ClientId) {
    |Feed(l, c)| - Taken(l, c) >= QUEUE_CAP
  }

  predicate IsMember(s: Hub, c: ClientId, r: string) {
    c in MembersOf(s.mem, r)
  }

  // ---- Sends ----

  function Push(l: Logs, c: ClientId, e: Event): Logs {
    l.(feed := l.feed[c := Feed(l, c) + [Private(e, |l.log|)]])
  }

  function Drain(l: Logs, c: ClientId): Logs {
    l.(taken := l.taken[c := Taken(l, c) + 1])
  }

  /** A client's writer takes an event, if there is one. */
  function TakeOne(s: Hub, c: ClientId): (s': Hub)
    ensures s' == s.(logs := s'.logs)
  {
    if Taken(s.logs, c) < |Feed(s.logs, c)| then s.(logs := Drain(s.logs, c)) else s
  }

  /** A blocking send: when the queue is full the client's writer must take an event first. */
  function Send(s: Hub, c: ClientId, e: Event): (s': Hub)
    ensures s' == s.(logs := s'.logs, panicked := s'.panicked)
  {
    if c in s.closed then s.(panicked := true)
    else s.(logs := Push(if Full(s.logs, c) then Drain(s.logs, c) else s.logs, c, e))
  }

  /** A non-blocking send: dropped when the queue is full. */
  function Offer(s: Hub, c: ClientId, e: Event): (s': Hub)
    ensures s' == s.(logs := s'.logs, panicked := s'.panicked)
  {
    if c in s.closed then s.(panicked := true)
    else if Full(s.logs, c) then s
    else s.(logs := Push(s.logs, c, e))
  }

  function Ready(l: Logs, cs: set<ClientId>): set<ClientId> {
    set c | c in cs && !Full(l, c)
  }

  /** One more log entry, queued to the clients it is delivered to. */
  function Announce(l: Logs, e: Entry): Logs {
    Logs(l.log + [e],
         map c | c in l.feed.Keys + e.delivered :: Feed(l, c) + if c in e.delivered then [Live(|l.log|)] else [],
         l.taken)
  }

  /** Fans one event out to the members of a room; slow consumers miss it. */
  function Broadcast(s: Hub, r: string, e: Event, who: ClientId, row: Option<Row>): (s': Hub)
    ensures s' == s.(logs := s'.logs, panicked := s'.panicked)
  {
    if r !in s.mem.rooms then s
    else
      var members := s.mem.rooms[r];
      if members * s.closed != {} then s.(panicked := true)
      else s.(logs := Announce(s.logs, Entry(r, e, who, row, members, Ready(s.logs, members), s.logs.taken)))
  }

  // ---- Commands ----

  function SendHistory(s: Hub, c: ClientId, r: string, env: Env): (s': Hub)
    ensures s' == s.(logs := s'.logs, panicked := s'.panicked)
  {
    if env.present && env.roomFound && r in s.store.roomIds && env.listed then
      var rows := Page(s.store.table, s.store.roomIds[r], HISTORY_LEN, None);
      if rows == [] then s else Send(s, c, History(r, rows))
    else s
  }

  function AddMember(m: Membership, c: ClientId, r: string): Membership {
    Membership(m.rooms[r := MembersOf(m, r) + {c}], m.joined[c := RoomsOf(m, c) + {r}])
  }

  function JoinRoom(s: Hub, c: ClientId, r: string, env: Env): (s': Hub)
    ensures s' == s.(mem := s'.mem, logs := s'.logs, panicked := s'.panicked)
  {
    if r == "" then Send(s, c, Failure(r, BadRequest))
    else if IsMember(s, c, r) then Send(s, c, Failure(r, AlreadyJoined))
    else
      var told := Broadcast(s.(mem := AddMember(s.mem, c, r)), r, UserJoined(r, Who(s, c).name), c, None);
      if told.panicked then told else SendHistory(told, c, r, env)
  }

  function DropMember(m: Membership, c: ClientId, r: string): Membership {
    Membership(m.rooms[r := MembersOf(m, r) - {c}], m.joined[c := RoomsOf(m, c) - {r}])
  }

  function DeleteEmpty(m: Membership, r: string): Membership {
    if MembersOf(m, r) != {} then m else m.(rooms := m.rooms - {r})
  }

  function LeaveRoom(s: Hub, c: ClientId, r: string): (s': Hub)
    ensures s' == s.(mem := s'.mem, logs := s'.logs, panicked := s'.panicked)
  {
    if r !in s.mem.rooms then Send(s, c, Failure(r, RoomNotFound))
    else if c !in s.mem.rooms[r] then Send(s, c, Failure(r, NotInRoom))
    else
      var told := Broadcast(s.(mem := DropMember(s.mem, c, r)), r, UserLeft(r, Who(s, c).name), c, None);
      if told.panicked then told else told.(mem := DeleteEmpty(told.mem, r))
  }

  /** The row saved for a message, if the sender and the store allow one. */
  function SavedRow(s: Hub, c: ClientId, r: string, text: string, env: Env): Option<Row> {
    var id := Who(s, c);
    if !id.isGuest && id.userId > 0 && env.present && env.roomFound && r in s.store.roomIds && env.saved
    then Some(Row(s.store.nextId, s.store.roomIds[r], id.userId, text))
    else None
  }

  function Save(t: Stored, row: Option<Row>): Stored {
    if row.None? then t else t.(table := t.table + [row.value], nextId := row.value.id + 1)
  }

  function SendRoomMessage(s: Hub, c: ClientId, r: string, from: string, text: string, env: Env): (s': Hub)
    ensures s' == s.(store := s'.store, logs := s'.logs, panicked := s'.panicked)
  {
    if r == "" then Send(s, c, Failure(r, BadRequest))
    else if r !in RoomsOf(s.mem, c) then Send(s, c, Failure(r, NotInRoom))
    else
      var row := SavedRow(s, c, r, text, env);
      var id := if row.Some? && env.idRead then row.value.id else 0;
      var sender := if from == "" then Who(s, c).name else from;
      Broadcast(s.(store := Save(s.store, row)), r, RoomMessage(r, id, sender, text), c, row)
  }

  function Perform(s: Hub, c: ClientId, effect: Effect): (s': Hub)
    ensures s' == s.(logs := s'.logs, panicked := s'.panicked)
  {
    match effect
    case ToSelf(e) => Send(s, c, e)
    case ToUser(u, e) => if u in s.userClients then Offer(s, s.userClients[u], e) else s
    case Pause(d) => TakeOne(s, d)
  }

  function PerformAll(s: Hub, c: ClientId, script: seq<Effect>): (s': Hub)
    ensures s' == s.(logs := s'.logs, panicked := s'.panicked)
    decreases |script|
  {
    if script == [] || s.panicked then s else PerformAll(Perform(s, c, script[0]), c, script[1..])
  }

  function Turn(s: Hub, c: ClientId, stop: Stop): (s': Hub)
    ensures s' == s.(mem := s'.mem, logs := s'.logs, panicked := s'.panicked)
  {
    match stop
    case Exit(r) => LeaveRoom(s, c, r)
    case Between(d) => TakeOne(s, d)
  }

  function LeaveAll(s: Hub, c: ClientId, order: seq<Stop>): (s': Hub)
    ensures s' == s.(mem := s'.mem, logs := s'.logs, panicked := s'.panicked)
    decreases |order|
  {
    if order == [] || s.panicked then s else LeaveAll(Turn(s, c, order[0]), c, order[1..])
  }

  /** The rooms left, in order. */
  function Exits(order: seq<Stop>): seq<string> {
    if order == [] then []
    else (if order[0].Exit? then [order[0].room] else []) + Exits(order[1..])
  }

  /** No longer registered, no longer a target, channel closed; closing it twice panics. */
  function Unlisted(s: Hub, c: ClientId): Hub {
    var uid := Who(s, c).userId;
    s.(registered := s.registered - {c},
       userClients := if uid > 0 then s.userClients - {uid} else s.userClients,
       closed := s.closed + {c},
       panicked := c in s.closed)
  }

  function RemoveClient(s: Hub, c: ClientId, order: seq<Stop>): Hub {
    if c !in s.registered then s
    else
      var s' := LeaveAll(s, c, order);
      if s'.panicked then s' else Unlisted(s', c)
  }

  function RegisterClient(s: Hub, c: ClientId): Hub {
    var uid := Who(s, c).userId;
    s.(registered := s.registered + {c},
       spawned := s.spawned + {c},
       userClients := if uid > 0 then s.userClients[uid := c] else s.userClients)
  }

  function HandleCommand(s: Hub, c: ClientId, cmd: Command, env: Env): (s': Hub)
    ensures s' == s.(mem := s'.mem, store := s'.store, logs := s'.logs, panicked := s'.panicked)
  {
    match cmd
    case Join(r) => JoinRoom(s, c, r, env)
    case Leave(r) => LeaveRoom(s, c, r)
    case Say(r, from, text) => SendRoomMessage(s, c, r, from, text, env)
    case Call(_) => PerformAll(s, c, env.script)
  }

  function Step(s: Hub, a: Action): Hub {
    match a
    case Register(c) => RegisterClient(s, c)
    case Unregister(c, order) => RemoveClient(s, c, order)
    case Handle(c, cmd, env) => HandleCommand(s, c, cmd, env)
    case Take(c) => s.(logs := Drain(s.logs, c))
    case Identify(c, id) => s.(who := s.who[c := id])
    case CreateRoom(name, id) => s.(store := s.store.(roomIds := s.store.roomIds[name := id]))
    case Shutdown => s.(closed := s.closed + s.registered, stopped := true,
                        panicked := s.closed * s.registered != {})
  }

  /** A duplicate-free listing of a set, as a range over a map visits its keys. */
  ghost predicate Lists(order: seq<string>, rs: set<string>) {
    && (forall i, j :: 0 <= i < j < |order| ==> order[i] != order[j])
    && (forall r :: r in order <==> r in rs)
  }

  /** When a step can happen. A panic or the end of Run stops the loop; each client is registered
      at most once, as the connection handler does; commands come only from started consumers. */
  ghost predicate Enabled(s: Hub, a: Action) {
    && !s.panicked
    && match a
       case Register(c) => !s.stopped && c !in s.spawned
       case Unregister(c, order) => !s.stopped && Lists(Exits(order), RoomsOf(s.mem, c))
       case Handle(c, _, _) => !s.stopped && c in s.spawned
       case Take(c) => Taken(s.logs, c) < |Feed(s.logs, c)|
       case Identify(_, _) => true
       case CreateRoom(name, id) => name !in s.store.roomIds && id !in s.store.roomIds.Values
       case Shutdown => !s.stopped
  }

  ghost predicate Initial(s: Hub) {
    && s.registered == s.spawned == s.closed == {}
    && s.userClients == map[] && !s.stopped && !s.panicked
    && s.mem == Membership(map[], map[])
    && s.logs == Logs([], map[], map[])
    && TableOk(s.store.table, s.store.nextId)
    && Injective(s.store.roomIds)
  }

  predicate TableOk(t: Table, nextId: int) {
    Sorted(t) && forall i :: 0 <= i < |t| ==> t[i].id < nextId
  }

  ghost predicate Injective(m: map<string, int>) {
    forall x, y :: x in m && y in m && m[x] == m[y] ==> x == y
  }

  function Exec(s: Hub, acts: seq<Action>): Hub {
    if acts == [] then s else Step(Exec(s, acts[..|acts| - 1]), acts[|acts| - 1])
  }

  ghost predicate Legal(s: Hub, acts: seq<Action>) {
    acts == [] ||
    (Legal(s, acts[..|acts| - 1]) && Enabled(Exec(s, acts[..|acts| - 1]), acts[|acts| - 1]))
  }
}
