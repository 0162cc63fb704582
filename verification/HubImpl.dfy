/**
 The hub as an object with mutable maps and bounded queues. A *Client or *Room
 is represented by its identity: its mutable fields are entries of the hub's
 maps. Every method is proved to take the step that HubSpec gives it.
 */
module HubImpl {
  import opened Common
  import opened Messages
  import opened HubSpec
  import opened HubInvariants
  import opened HubTheorems
  import HubPanics

  // ---- Queues ----

  /** A non-blocking send: a full queue drops the event. */
  function Offered(q: seq<Event>, e: Event): seq<Event> {
    if |q| < QUEUE_CAP then q + [e] else q
  }

  /** A blocking send: when the queue is full, the client's writer takes an event first. */
  function Forced(q: seq<Event>, e: Event): seq<Event> {
    (if |q| >= QUEUE_CAP then q[1..] else q) + [e]
  }

  function Shown(log: seq<Entry>, x: Item): Event
    requires x.Live? ==> x.index < |log|
  {
    match x
    case Private(e, _) => e
    case Live(i) => log[i].event
  }

  /** q shows the part of feed f, in the light of the log, that is not yet taken. */
  ghost predicate Window(log: seq<Entry>, f: seq<Item>, taken: nat, q: seq<Event>) {
    && taken <= |f| <= taken + QUEUE_CAP && |q| == |f| - taken
    && (forall p :: 0 <= p < |f| ==> After(f[p]) <= |log|)
    && (forall k :: 0 <= k < |q| ==> After(f[taken + k]) <= |log| && q[k] == Shown(log, f[taken + k]))
  }

  lemma WindowPush(log: seq<Entry>, f: seq<Item>, taken: nat, q: seq<Event>, x: Item)
    requires Window(log, f, taken, q) && |q| < QUEUE_CAP && After(x) <= |log|
    ensures Window(log, f + [x], taken, q + [Shown(log, x)])
  {}

  lemma WindowLog(log: seq<Entry>, f: seq<Item>, taken: nat, q: seq<Event>, e: Entry)
    requires Window(log, f, taken, q)
    ensures Window(log + [e], f, taken, q)
  {}

  /** q is what the channel of c holds. */
  ghost predicate Holds(l: Logs, c: ClientId, q: seq<Event>) {
    Window(l.log, Feed(l, c), Taken(l, c), q)
  }

  lemma HoldsPush(l: Logs, c: ClientId, e: Event, q: seq<Event>)
    requires Holds(l, c, q) && |q| < QUEUE_CAP
    ensures Holds(Push(l, c, e), c, q + [e])
  {
    WindowPush(l.log, Feed(l, c), Taken(l, c), q, Private(e, |l.log|));
  }

  lemma HoldsDrain(l: Logs, c: ClientId, q: seq<Event>)
    requires Holds(l, c, q) && q != []
    ensures Holds(Drain(l, c), c, q[1..])
  {}

  lemma HoldsAnnounce(l: Logs, e: Entry, c: ClientId, q: seq<Event>)
    requires Holds(l, c, q) && e.delivered == Ready(l, e.members)
    ensures Holds(Announce(l, e), c, if c in e.members then Offered(q, e.event) else q)
  {
    AnnounceIs(l, e, c);
    WindowLog(l.log, Feed(l, c), Taken(l, c), q, e);
    if c in e.delivered {
      WindowPush(l.log + [e], Feed(l, c), Taken(l, c), q, Live(|l.log|));
    }
  }

  lemma HoldsSend(s: Hub, c: ClientId, e: Event, d: ClientId, q: seq<Event>)
    requires Holds(s.logs, d, q) && c !in s.closed
    ensures Holds(Send(s, c, e).logs, d, if d == c then Forced(q, e) else q)
  {
    if d == c {
      if Full(s.logs, c) {
        HoldsDrain(s.logs, c, q);
        HoldsPush(Drain(s.logs, c), c, e, q[1..]);
      } else {
        HoldsPush(s.logs, c, e, q);
      }
    }
  }

  lemma HoldsOffer(s: Hub, c: ClientId, e: Event, d: ClientId, q: seq<Event>)
    requires Holds(s.logs, d, q) && c !in s.closed
    ensures Holds(Offer(s, c, e).logs, d, if d == c then Offered(q, e) else q)
  {
    if d == c && !Full(s.logs, c) {
      HoldsPush(s.logs, c, e, q);
    }
  }

  function QueueOf(qs: map<ClientId, seq<Event>>, c: ClientId): seq<Event> {
    if c in qs then qs[c] else []
  }

  ghost predicate AllHold(qs: map<ClientId, seq<Event>>, l: Logs) {
    forall c: ClientId :: Holds(l, c, QueueOf(qs, c))
  }

  lemma AllHoldSend(qs: map<ClientId, seq<Event>>, s: Hub, c: ClientId, e: Event)
    requires AllHold(qs, s.logs) && c !in s.closed
    ensures AllHold(qs[c := Forced(QueueOf(qs, c), e)], Send(s, c, e).logs)
  {
    var qs' := qs[c := Forced(QueueOf(qs, c), e)];
    forall d: ClientId ensures Holds(Send(s, c, e).logs, d, QueueOf(qs', d)) {
      HoldsSend(s, c, e, d, QueueOf(qs, d));
    }
  }

  lemma AllHoldDrain(qs: map<ClientId, seq<Event>>, l: Logs, c: ClientId)
    requires AllHold(qs, l) && QueueOf(qs, c) != []
    ensures AllHold(qs[c := QueueOf(qs, c)[1..]], Drain(l, c))
  {
    var qs' := qs[c := QueueOf(qs, c)[1..]];
    forall d: ClientId ensures Holds(Drain(l, c), d, QueueOf(qs', d)) {
      assert Holds(l, d, QueueOf(qs, d));
      if d == c {
        HoldsDrain(l, c, QueueOf(qs, c));
      }
    }
  }

  lemma AllHoldOffer(qs: map<ClientId, seq<Event>>, s: Hub, c: ClientId, e: Event)
    requires AllHold(qs, s.logs) && c !in s.closed
    ensures AllHold(qs[c := Offered(QueueOf(qs, c), e)], Offer(s, c, e).logs)
  {
    var qs' := qs[c := Offered(QueueOf(qs, c), e)];
    forall d: ClientId ensures Holds(Offer(s, c, e).logs, d, QueueOf(qs', d)) {
      HoldsOffer(s, c, e, d, QueueOf(qs, d));
    }
  }

  /** The event was offered to exactly these clients. */
  ghost predicate FannedOut(
    qs: map<ClientId, seq<Event>>, qs': map<ClientId, seq<Event>>, cs: set<ClientId>, e: Event)
  {
    forall c: ClientId :: QueueOf(qs', c) == if c in cs then Offered(QueueOf(qs, c), e) else QueueOf(qs, c)
  }

  lemma AllHoldAnnounce(qs: map<ClientId, seq<Event>>, qs': map<ClientId, seq<Event>>, l: Logs, e: Entry)
    requires AllHold(qs, l) && e.delivered == Ready(l, e.members)
    requires FannedOut(qs, qs', e.members, e.event)
    ensures AllHold(qs', Announce(l, e))
  {
    forall c: ClientId ensures Holds(Announce(l, e), c, QueueOf(qs', c)) {
      HoldsAnnounce(l, e, c, QueueOf(qs, c));
    }
  }

  lemma AllHoldBroadcast(
    qs: map<ClientId, seq<Event>>, qs': map<ClientId, seq<Event>>, s: Hub,
    r: string, e: Event, who: ClientId, row: Option<Row>)
    requires AllHold(qs, s.logs) && r in s.mem.rooms && s.mem.rooms[r] * s.closed == {}
    requires FannedOut(qs, qs', s.mem.rooms[r], e)
    ensures AllHold(qs', Broadcast(s, r, e, who, row).logs)
  {
    var members := s.mem.rooms[r];
    AllHoldAnnounce(qs, qs', s.logs, Entry(r, e, who, row, members, Ready(s.logs, members), s.logs.taken));
  }

  /** Room.Broadcast: offers the event to every member; sending on a closed channel panics. */
  method Fanout(queues: map<ClientId, seq<Event>>, members: set<ClientId>, closed: set<ClientId>, e: Event)
    returns (after: map<ClientId, seq<Event>>, panics: bool)
    ensures panics <==> members * closed != {}
    ensures !panics ==> FannedOut(queues, after, members, e)
  {
    after, panics := queues, false;
    var todo := members;
    while todo != {}
      invariant todo <= members
      invariant (members - todo) * closed == {}
      invariant FannedOut(queues, after, members - todo, e)
      decreases todo
    {
      Inhabited(todo);
      var c: ClientId :| c in todo;
      if c in closed {
        assert c in members * closed;
        return after, true;
      }
      var q := QueueOf(after, c);
      after := after[c := if |q| < QUEUE_CAP then q + [e] else q];
      todo := todo - {c};
    }
    assert members - todo == members;
  }

  // ---- The hub ----

  class CoreHub {
    var clients: set<ClientId>
    var rooms: map<string, set<ClientId>>      // Room.clients by room name
    var joined: map<ClientId, set<string>>     // Client.Rooms
    var userClients: map<int, ClientId>
    var who: map<ClientId, Identity>           // Client.UserID, Name and IsGuest
    var queues: map<ClientId, seq<Event>>      // what each Events channel holds
    var closed: set<ClientId>                  // the closed Events channels
    var roomIds: map<string, int>              // stored rooms by name
    var messages: MessageStore
    var stopped: bool
    var panicked: bool

    ghost var spawned: set<ClientId>           // clients whose consumer was ever started
    ghost var logs: Logs                       // the broadcast log and the feeds
    ghost const start: Hub                     // the state in the beginning
    ghost var acts: seq<Action>                // all steps so far

    /** The abstract state. */
    ghost function State(): Hub
      reads this, messages
    {
      Hub(clients, spawned, closed, userClients, who, Membership(rooms, joined),
          Stored(roomIds, messages.table, messages.nextId), logs, stopped, panicked)
    }

    /** Unless a panic has ended the hub, each queue holds the untaken part of its client's feed. */
    ghost predicate Ok()
      reads this, messages
    {
      messages.Valid() && (!panicked ==> AllHold(queues, logs))
    }

    /** The state is what the steps so far have made of an empty hub, so that whatever holds of every
        run holds of this object. */
    ghost predicate Valid()
      reads this, messages
    {
      Ok() && Initial(start) && Legal(start, acts) && PlainRun(acts) && State() == Exec(start, acts)
    }

    constructor (messages: MessageStore, roomIds: map<string, int>)
      requires messages.Valid() && Injective(roomIds)
      ensures Valid() && acts == [] && fresh(this)
      ensures this.messages == messages && State().store == Stored(roomIds, messages.table, messages.nextId)
    {
      clients, rooms, joined, userClients, who := {}, map[], map[], map[], map[];
      queues, closed, stopped, panicked := map[], {}, false, false;
      this.roomIds, this.messages := roomIds, messages;
      spawned, logs, acts := {}, Logs([], map[], map[]), [];
      start := Hub({}, {}, {}, map[], map[], Membership(map[], map[]),
                   Stored(roomIds, messages.table, messages.nextId), Logs([], map[], map[]), false, false);
    }

    function Id(c: ClientId): Identity
      reads this
    {
      if c in who then who[c] else Identity(0, "", false)
    }

    function Rooms(c: ClientId): set<string>
      reads this
    {
      if c in joined then joined[c] else {}
    }

    /** client.Events <- e */
    method SendTo(c: ClientId, e: Event)
      requires Ok() && !panicked
      modifies this`queues, this`panicked, this`logs
      ensures Ok() && State() == Send(old(State()), c, e)
    {
      if c in closed {
        panicked := true;
      } else {
        AllHoldSend(queues, State(), c, e);
        logs := Send(State(), c, e).logs;
        var q := QueueOf(queues, c);
        if |q| >= QUEUE_CAP {
          q := q[1..];  // the client's writer takes one
        }
        queues := queues[c := q + [e]];
      }
    }

    /** Targeted send to a connected user; dropped when the queue is full. */
    method SendToUser(user: int, e: Event) returns (sent: bool)
      requires Ok() && !panicked
      modifies this`queues, this`panicked, this`logs
      ensures Ok() && State() == Perform(old(State()), 0, ToUser(user, e))
      ensures sent <==> user in userClients && !panicked && |QueueOf(old(queues), userClients[user])| < QUEUE_CAP
    {
      sent := false;
      if user in userClients {
        var c := userClients[user];
        if c in closed {
          panicked := true;
        } else {
          AllHoldOffer(queues, State(), c, e);
          logs := Offer(State(), c, e).logs;
          var q := QueueOf(queues, c);
          sent := |q| < QUEUE_CAP;
          queues := queues[c := if sent then q + [e] else q];
        }
      }
    }

    /** Looks the room up by name and broadcasts in it; an unknown room is a no-op. */
    method BroadcastToRoom(r: string, e: Event, ghost sender: ClientId, ghost row: Option<Row>)
      requires Ok() && !panicked
      modifies this`queues, this`panicked, this`logs
      ensures Ok() && State() == Broadcast(old(State()), r, e, sender, row)
    {
      if r in rooms {
        var after, panics := Fanout(queues, rooms[r], closed, e);
        if panics {
          panicked := true;
        } else {
          AllHoldBroadcast(queues, after, State(), r, e, sender, row);
          logs := Broadcast(State(), r, e, sender, row).logs;
          queues := after;
        }
      }
    }

    /** ensureRoom, Room.AddClient and the client's own index. A room created here is never left
        empty: a client cannot already be in a room that did not exist. */
    method AddClient(c: ClientId, r: string) returns (added: bool)
      requires Ok()
      modifies this`rooms, this`joined
      ensures Ok() && (added <==> !IsMember(old(State()), c, r))
      ensures State() == if added then old(State()).(mem := AddMember(old(State()).mem, c, r)) else old(State())
    {
      var room := if r in rooms then rooms[r] else {};
      added := c !in room;
      if added {
        rooms := rooms[r := room + {c}];
        joined := joined[c := Rooms(c) + {r}];
      }
    }

    /** Room.RemoveClient and the client's own index. */
    method TakeOut(c: ClientId, r: string) returns (removed: bool)
      requires Ok() && r in rooms
      modifies this`rooms, this`joined
      ensures Ok() && (removed <==> IsMember(old(State()), c, r))
      ensures State() == if removed then old(State()).(mem := DropMember(old(State()).mem, c, r)) else old(State())
    {
      removed := c in rooms[r];
      if removed {
        rooms := rooms[r := rooms[r] - {c}];
        joined := joined[c := Rooms(c) - {r}];
      }
    }

    method JoinRoom(c: ClientId, r: string, env: Env)
      requires Ok() && !panicked
      modifies this`rooms, this`joined, this`queues, this`panicked, this`logs
      ensures Ok() && State() == HubSpec.JoinRoom(old(State()), c, r, env)
    {
      if r == "" {
        SendTo(c, Failure(r, BadRequest));
      } else {
        var added := AddClient(c, r);
        if !added {
          SendTo(c, Failure(r, AlreadyJoined));
        } else {
          BroadcastToRoom(r, UserJoined(r, Id(c).name), c, None);
          if !panicked {
            SendHistory(c, r, env);
          }
        }
      }
    }

    /** The last messages of a stored room, to the joining client only. */
    method SendHistory(c: ClientId, r: string, env: Env)
      requires Ok() && !panicked
      modifies this`queues, this`panicked, this`logs
      ensures Ok() && State() == HubSpec.SendHistory(old(State()), c, r, env)
    {
      if env.present && env.roomFound && r in roomIds && env.listed {
        var rows := messages.ListMessages(roomIds[r], HISTORY_LEN, None);
        if rows.Length > 0 {
          SendTo(c, History(r, rows[..]));
        }
      }
    }

    method LeaveRoom(c: ClientId, r: string)
      requires Ok() && !panicked
      modifies this`rooms, this`joined, this`queues, this`panicked, this`logs
      ensures Ok() && State() == HubSpec.LeaveRoom(old(State()), c, r)
    {
      if r !in rooms {
        SendTo(c, Failure(r, RoomNotFound));
      } else {
        var removed := TakeOut(c, r);
        if !removed {
          SendTo(c, Failure(r, NotInRoom));
        } else {
          BroadcastToRoom(r, UserLeft(r, Id(c).name), c, None);
          if !panicked && rooms[r] == {} {
            rooms := rooms - {r};
          }
        }
      }
    }

    method SendRoomMessage(c: ClientId, r: string, from: string, text: string, env: Env)
      requires Ok() && !panicked
      modifies this`queues, this`panicked, this`logs, messages
      ensures Ok() && State() == HubSpec.SendRoomMessage(old(State()), c, r, from, text, env)
    {
      if r == "" {
        SendTo(c, Failure(r, BadRequest));
      } else if r !in Rooms(c) {
        SendTo(c, Failure(r, NotInRoom));
      } else {
        var id := 0;
        ghost var row := SavedRow(State(), c, r, text, env);
        if !Id(c).isGuest && Id(c).userId > 0 && env.present && env.roomFound && r in roomIds {
          var saved := messages.SaveMessage(roomIds[r], Id(c).userId, text, !env.saved, !env.idRead);
          if saved.Ok? {
            id := saved.value;
          }
        }
        BroadcastToRoom(r, RoomMessage(r, id, if from == "" then Id(c).name else from, text), c, row);
      }
    }

    /** What a client's writer finds next in its channel, if anything. */
    method TakeNext(c: ClientId) returns (e: Option<Event>)
      requires Ok() && !panicked
      modifies this`queues, this`logs
      ensures Ok() && State() == TakeOne(old(State()), c)
      ensures e == if QueueOf(old(queues), c) == [] then None else Some(QueueOf(old(queues), c)[0])
      ensures e.Some? <==> Taken(old(logs), c) < |Feed(old(logs), c)|
    {
      var q := QueueOf(queues, c);
      assert Holds(logs, c, q);
      e := None;
      if q != [] {
        AllHoldDrain(queues, logs, c);
        e := Some(q[0]);
        logs := Drain(logs, c);
        queues := queues[c := q[1..]];
      }
    }

    /** Writers are goroutines of their own: any of them may take events now. */
    method WritersTake(ghost c: ClientId) returns (ghost stops: seq<Stop>)
      requires Ok() && !panicked
      modifies this`queues, this`logs
      ensures Ok() && Exits(stops) == [] && State() == LeaveAll(old(State()), c, stops)
    {
      var many: int := *;
      var n := if many < 0 then 0 else many;
      stops := [];
      for i := 0 to n
        invariant Ok() && !panicked && Exits(stops) == [] && State() == LeaveAll(old(State()), c, stops)
      {
        var d: ClientId := *;
        LeaveAllConcat(old(State()), c, stops, [Between(d)]);
        ExitsConcat(stops, [Between(d)]);
        var _ := TakeNext(d);
        OneTurn(LeaveAll(old(State()), c, stops), c, Between(d));
        stops := stops + [Between(d)];
      }
    }

    /** Ranges over the client's rooms while leaving each one shrinks that very set, and while other
        clients' writers go on. The order of the visit is arbitrary; it is returned so that the step
        can be named. */
    method LeaveRooms(c: ClientId) returns (ghost order: seq<Stop>)
      requires Ok() && !panicked
      modifies this`rooms, this`joined, this`queues, this`panicked, this`logs
      ensures Ok() && Lists(Exits(order), RoomsOf(old(State()).mem, c))
      ensures State() == LeaveAll(old(State()), c, order)
    {
      var todo := Rooms(c);
      ghost var all := todo;
      order := [];
      while todo != {} && !panicked
        invariant Ok() && todo <= all && Lists(Exits(order), all - todo)
        invariant State() == LeaveAll(old(State()), c, order)
        decreases todo
      {
        ghost var stops := WritersTake(c);
        var r :| r in todo;
        LeaveRoom(c, r);
        NextOrder(old(State()), c, order, stops, r, all, todo);
        order, todo := order + stops + [Exit(r)], todo - {r};
      }
      order := FinishOrder(old(State()), c, order, all, todo);
    }

    /** After a panic the rooms not visited may be listed in any order. */
    ghost method FinishOrder(s: Hub, c: ClientId, visited: seq<Stop>, all: set<string>, todo: set<string>)
      returns (order: seq<Stop>)
      requires todo <= all && Lists(Exits(visited), all - todo) && (todo == {} || LeaveAll(s, c, visited).panicked)
      ensures Lists(Exits(order), all) && LeaveAll(s, c, order) == LeaveAll(s, c, visited)
    {
      if todo == {} {
        order := visited;
        assert all - todo == all;
      } else {
        var rest := Listing(todo);
        LeaveAllConcat(s, c, visited, AllExits(rest));
        RestOrder(visited, rest, all, todo);
        order := visited + AllExits(rest);
      }
    }

    method RemoveClient(c: ClientId) returns (ghost order: seq<Stop>)
      requires Ok() && !panicked
      modifies this`rooms, this`joined, this`queues, this`panicked, this`logs
      modifies this`clients, this`userClients, this`closed
      ensures Ok() && Lists(Exits(order), RoomsOf(old(State()).mem, c))
      ensures State() == HubSpec.RemoveClient(old(State()), c, order)
    {
      if c in clients {
        order := LeaveRooms(c);
        if !panicked {
          Forget(c);
        }
      } else {
        order := AllExits(Listing(Rooms(c)));
        AllExitsExit(Listing(Rooms(c)));
      }
    }

    /** The end of removeClient: unregister and close the channel. */
    method Forget(c: ClientId)
      requires Ok() && !panicked
      modifies this`clients, this`userClients, this`closed, this`panicked
      ensures Ok() && State() == Unlisted(old(State()), c)
    {
      clients := clients - {c};
      if Id(c).userId > 0 {
        userClients := userClients - {Id(c).userId};
      }
      panicked := c in closed;  // closing a closed channel
      closed := closed + {c};
    }

    method Register(c: ClientId)
      requires Ok() && !panicked
      modifies this`clients, this`userClients, this`spawned
      ensures Ok() && State() == RegisterClient(old(State()), c)
    {
      clients := clients + {c};
      if Id(c).userId > 0 {
        userClients := userClients[Id(c).userId := c];
      }
      spawned := spawned + {c};
    }

    /** Closes every registered client's channel. */
    method Shutdown()
      requires Ok() && !panicked
      modifies this`closed, this`stopped, this`panicked
      ensures Ok() && State() == Step(old(State()), Action.Shutdown)
    {
      ghost var was := closed;
      var todo := clients;
      while todo != {}
        invariant todo <= clients && closed == was + (clients - todo) && stopped == old(stopped)
        invariant panicked <==> (clients - todo) * was != {}
        invariant Ok()
        decreases todo
      {
        Inhabited(todo);
        var c: ClientId :| c in todo;
        assert (clients - (todo - {c})) * was == (clients - todo) * was + ({c} * was);
        assert c in {c} * was <==> c in was;
        panicked := panicked || c in closed;
        closed, todo := closed + {c}, todo - {c};
      }
      assert clients - todo == clients;
      stopped := true;
    }

    method HandleCommand(c: ClientId, cmd: Command, env: Env)
      requires Ok() && !panicked
      modifies this`rooms, this`joined, this`queues, this`panicked, this`logs, messages
      ensures Ok() && State() == Step(old(State()), Handle(c, cmd, env))
    {
      match cmd
      case Join(r) => JoinRoom(c, r, env);
      case Leave(r) => LeaveRoom(c, r);
      case Say(r, from, text) => SendRoomMessage(c, r, from, text, env);
      case Call(_) => HandleCall(c, env.script);
    }

    /** A call handler: what it sends, in order. The first send on a closed channel ends it. */
    method HandleCall(c: ClientId, script: seq<Effect>)
      requires Ok() && !panicked
      modifies this`queues, this`panicked, this`logs
      ensures Ok() && State() == PerformAll(old(State()), c, script)
    {
      var k := 0;
      assert script[0..] == script;
      while k < |script| && !panicked
        invariant 0 <= k <= |script| && Ok()
        invariant PerformAll(old(State()), c, script) == PerformAll(State(), c, script[k..])
      {
        PerformNext(State(), c, script, k);
        match script[k] {
          case ToSelf(e) => SendTo(c, e);
          case ToUser(u, e) => var _ := SendToUser(u, e);
          case Pause(d) => var _ := TakeNext(d);
        }
        k := k + 1;
      }
    }

    // ---- The run ----

    ghost method Record(a: Action)
      requires Ok() && Initial(start) && Legal(start, acts) && PlainRun(acts)
      requires Enabled(Exec(start, acts), a) && PlainEvents(a) && State() == Step(Exec(start, acts), a)
      modifies this`acts
      ensures Valid() && acts == old(acts) + [a]
    {
      HubPanics.ExecAppend(start, acts, a);
      acts := acts + [a];
    }

    /** One turn of the event loop, for whatever the select receives. */
    method RunOnce(input: Input)
      requires Valid() && !panicked && !stopped && CanArrive(State(), input)
      modifies this, messages
      ensures Valid() && messages == old(messages)
      ensures |acts| == |old(acts)| + 1 && acts[..|old(acts)|] == old(acts) && Causes(input, acts[|old(acts)|])
    {
      match input
      case FromRegister(c) =>
        Register(c);
        Record(Action.Register(c));
      case FromUnregister(c) =>
        ghost var order := RemoveClient(c);
        Record(Unregister(c, order));
      case FromCommands(c, cmd, env) =>
        HandleCommand(c, cmd, env);
        Record(Handle(c, cmd, env));
      case Done =>
        Shutdown();
        Record(Action.Shutdown);
    }

    /** A client's writer receives from its Events channel. */
    method TakeEvent(c: ClientId) returns (e: Option<Event>)
      requires Valid() && !panicked
      modifies this`queues, this`logs, this`acts
      ensures Valid() && acts == old(acts) + (if e.Some? then [Take(c)] else [])
      ensures e == if QueueOf(old(queues), c) == [] then None else Some(QueueOf(old(queues), c)[0])
    {
      e := TakeNext(c);
      if e.Some? {
        Record(Take(c));
      }
    }

    /** The hello handshake sets who a client is. */
    method SetIdentity(c: ClientId, identity: Identity)
      requires Valid() && !panicked
      modifies this`who, this`acts
      ensures Valid() && acts == old(acts) + [Identify(c, identity)]
    {
      who := who[c := identity];
      Record(Identify(c, identity));
    }

    /** A room was stored. */
    method RoomStored(name: string, id: int)
      requires Valid() && !panicked && name !in roomIds && id !in roomIds.Values
      modifies this`roomIds, this`acts
      ensures Valid() && acts == old(acts) + [CreateRoom(name, id)]
    {
      roomIds := roomIds[name := id];
      Record(CreateRoom(name, id));
    }
  }

  /** What the event loop's select can receive. */
  datatype Input =
    | FromRegister(c: ClientId)
    | FromUnregister(c: ClientId)
    | FromCommands(c: ClientId, cmd: Command, env: Env)
    | Done

  /** A client registers once, and only started consumers send commands. */
  ghost predicate CanArrive(s: Hub, input: Input) {
    match input
    case FromRegister(c) => c !in s.spawned
    case FromCommands(c, _, env) => c in s.spawned && PlainScript(env.script)
    case _ => true
  }

  predicate Causes(input: Input, a: Action) {
    match input
    case FromRegister(c) => a == Register(c)
    case FromUnregister(c) => a.Unregister? && a.c == c
    case FromCommands(c, cmd, env) => a == Handle(c, cmd, env)
    case Done => a == Shutdown
  }

  lemma PerformNext(s: Hub, c: ClientId, script: seq<Effect>, k: nat)
    requires k < |script| && !s.panicked
    ensures PerformAll(s, c, script[k..]) == PerformAll(Perform(s, c, script[k]), c, script[k + 1..])
  {
    assert script[k..][1..] == script[k + 1..];
  }

  // ---- Facts about the visiting order ----

  ghost function Listing(rs: set<string>): (l: seq<string>)
    ensures Lists(l, rs)
  {
    if rs == {} then []
    else
      var r :| r in rs;
      ListsAppend(Listing(rs - {r}), rs - {r}, [r]);
      assert rs - {r} + {r} == rs;
      Listing(rs - {r}) + [r]
  }

  lemma ListsAppend(a: seq<string>, rs: set<string>, b: seq<string>)
    requires Lists(a, rs) && (forall i, j :: 0 <= i < j < |b| ==> b[i] != b[j])
    requires forall r :: r in b ==> r !in rs
    ensures Lists(a + b, rs + set r | r in b)
  {
    var l := a + b;
    forall i, j | 0 <= i < j < |l| ensures l[i] != l[j] {
      if i < |a| <= j {
        assert l[i] in a && l[j] in b;
      }
    }
  }

  ghost function AllExits(rs: seq<string>): seq<Stop> {
    if rs == [] then [] else [Exit(rs[0])] + AllExits(rs[1..])
  }

  lemma {:induction false} AllExitsExit(rs: seq<string>)
    ensures Exits(AllExits(rs)) == rs
  {
    if rs != [] {
      AllExitsExit(rs[1..]);
      assert AllExits(rs)[1..] == AllExits(rs[1..]);
    }
  }

  lemma {:induction false} ExitsConcat(a: seq<Stop>, b: seq<Stop>)
    ensures Exits(a + b) == Exits(a) + Exits(b)
  {
    if a == [] {
      assert a + b == b;
    } else {
      ExitsConcat(a[1..], b);
      assert (a + b)[1..] == a[1..] + b;
    }
  }

  lemma {:induction false} LeaveAllConcat(s: Hub, c: ClientId, a: seq<Stop>, b: seq<Stop>)
    ensures LeaveAll(s, c, a + b) == LeaveAll(LeaveAll(s, c, a), c, b)
    decreases |a|
  {
    if a == [] {
      assert a + b == b;
    } else if !s.panicked {
      var t := Turn(s, c, a[0]);
      calc {
        LeaveAll(s, c, a + b);
        { FirstTurn(s, c, a + b); assert (a + b)[1..] == a[1..] + b; }
        LeaveAll(t, c, a[1..] + b);
        { LeaveAllConcat(t, c, a[1..], b); }
        LeaveAll(LeaveAll(t, c, a[1..]), c, b);
        { FirstTurn(s, c, a); }
        LeaveAll(LeaveAll(s, c, a), c, b);
      }
    }
  }

  lemma OneTurn(s: Hub, c: ClientId, stop: Stop)
    requires !s.panicked
    ensures LeaveAll(s, c, [stop]) == Turn(s, c, stop)
  {
    assert [stop][1..] == [];
    assert LeaveAll(Turn(s, c, stop), c, []) == Turn(s, c, stop);
  }

  lemma RestOrder(visited: seq<Stop>, rest: seq<string>, all: set<string>, todo: set<string>)
    requires todo <= all && Lists(Exits(visited), all - todo) && Lists(rest, todo)
    ensures Lists(Exits(visited + AllExits(rest)), all)
  {
    ExitsConcat(visited, AllExits(rest));
    AllExitsExit(rest);
    ListsAppend(Exits(visited), all - todo, rest);
    assert all - todo + (set x | x in rest) == all;
  }

  /** Some takes and one more room left. */
  lemma NextOrder(
    s: Hub, c: ClientId, order: seq<Stop>, stops: seq<Stop>, r: string, all: set<string>, todo: set<string>)
    requires Exits(stops) == [] && r in todo && todo <= all && Lists(Exits(order), all - todo)
    requires !LeaveAll(LeaveAll(s, c, order), c, stops).panicked
    ensures var order' := order + stops + [Exit(r)];
            && Lists(Exits(order'), all - (todo - {r}))
            && LeaveAll(s, c, order')
               == HubSpec.LeaveRoom(LeaveAll(LeaveAll(s, c, order), c, stops), c, r)
  {
    ExitsConcat(order, stops);
    ExitsConcat(order + stops, [Exit(r)]);
    assert [Exit(r)][1..] == [] && Exits([Exit(r)]) == [r];
    ListsAppend(Exits(order), all - todo, [r]);
    assert all - todo + (set x | x in [r]) == all - (todo - {r});
    LeaveAllConcat(s, c, order, stops);
    LeaveAllConcat(s, c, order + stops, [Exit(r)]);
    OneTurn(LeaveAll(s, c, order + stops), c, Exit(r));
  }
}
