# WireChat models

Dafny models of the WireChat chat server and proofs about them: the hub and its
broadcasts, the command pipeline and connection admission, the message log and
its paging, friendships, calls, and direct rooms. `dafny verify dfyconfig.toml`
checks everything.

## How it is built

Every mutable component appears twice. A pure specification gives each
operation as a function from state to state (`HubSpec`, `Friends`, `Calls`,
`Rooms`, `Transport`), and whole runs are sequences of such steps. A class with
the source's own mutable fields and loops (`HubImpl.CoreHub`,
`FriendsImpl.FriendService`, `CallsImpl.CallService`, `Rooms.RoomStore`,
`Messages.MessageStore`, `Transport.Connection`) is proved to take exactly
those steps, method by method. The hub and the friend and call services also
carry the list of their steps so far, and their invariant is that the state is
what that run makes of an empty one. The theorems are about all runs.
The modules named `...Effects` and `ServerReads` say of each operation, in terms
of what was stored and sent before and after, when it succeeds, what it then
does and whom it tells; the other theorems say what all runs keep.

- `Messages`: the message table, the windowed query with its in-place reversal,
  walking the log page by page, the REST history handler.
- `HubSpec`, `HubInvariants`, `HubTheorems`, `HubEffects`, `HubHistory`,
  `HubPanics`, `HubImpl`, `CallHandlers`, `CallHandlersImpl`: the event loop. The
  state also records one hub-wide log of broadcasts and, per client, the feed of
  all that was ever queued to it; an Events channel holds the part of the feed
  not yet taken by the client's writer.
- `Transport`: the read loop's decision for one frame, hello, the rate limiters.
- `Server`, `ServerReads`, `Admission`, `Credentials`, `ServerPanics`,
  `ServerRates`: connections, queues, room tables and hub together, one step per
  hand-over. `Backend`: the same together with the call and friend services.
- `Friends`, `FriendEffects`, `FriendsImpl`, `Calls`, `CallTheorems`,
  `CallEffects`, `CallPresence`, `CallsImpl`, `Social`, `Rooms`: the persisted
  state machines. Each store call may fail; a `Faults` record says which ones do.
  `Calls` and `Server` use the tables of `Rooms`; `Social` lets the call service
  read the friend service's table.

## Assumptions

- One command, one registration or one removal is one step of the hub: a single
  goroutine runs them. The clients' writers are goroutines of their own and may
  take events at any time, also between two broadcasts of one removal or two
  sends of one call handler; within a single broadcast or send a take can be
  moved before or after it without any difference.
- A service method and a room operation are one atomic step each; the single
  SQLite connection serialises statements, not methods, so this is an assumption.
- Hello sets user id, name and guest flag of a client in one step, before or
  after any step of the hub. The code writes the three fields one by one and
  without synchronisation (`internal/transport/http/ws_handler.go:401-403`);
  `SavedMessagesAreAuthored` and `CredentialsAreForTheirUser` rest on this.
- A client is registered at most once, as the connection handler does
  (`internal/transport/http/ws_handler.go:61`).
- A blocking send to a full Events channel is modelled as the client's writer
  taking one event and the send then going through. A send that blocks for ever
  is a run that ends there.
- Ids given by the AUTOINCREMENT columns increase.

## What the code does not provide

Each of these is proved as such, with a concrete run or input and the exact
condition under which the code does meet the property.

- The hub does not check that the client of a command is still registered. It
  panics in exactly those runs whose last step answers a client removed before
  (`HubPanics.PanicsExactlyForRemoved`, and for the whole server, with user ids
  set and changed by hello, `ServerPanics.ServerPanicsExactly`). Concrete runs:
  `HubPanics.RemovedClientPanics`, `ServerPanics.QueuedCommandPanics`, and
  `HubPanics.StaleUserPanics` for a client that exchanged its user id.
- The history handler cuts the newest row off every page that has more: it
  returns the newest rows exactly when nothing more remains
  (`HandlerPageNewestIff`), and following the pages loses one row per page
  (`HandlerWalkLoses`). `PROTOCOL.md:1194-1201` describes newest-first pages;
  that is what is served exactly when at most one row precedes the cursor
  (`DocumentedPageIff`), and the documented next cursor hardly moves
  (`DocumentedCursorBarelyMoves`). Input: `HandlerSkipsNewest`. The model
  follows the code.
- If the lookup that guards a friend insert fails while the pair is stored the
  other way round, the pair gets two rows (`OneRowKeptIff`, over runs
  `RunOneRowIff`), and the two friendship queries can then contradict each other
  (`LookupContradictsIff`; run: `BlindInsertContradicts`). A block that stored
  its row but failed to mark it leaves a friend request that the blocked user
  can accept (`HalfBlockIff`; run: `HalfBlockBefriends`). A counter-block that
  fails half-way lifts the old block (`BlockLostIff`; run: `CounterBlockLifts`).
- Leaving ends a call under somebody still in it exactly when there is such a
  person and every other participant, in the call or not, has left it at least
  once (`EndsUnderSomebodyIff`; run: `RejoinIsForgotten`); or when listing the
  participants fails before showing one who never left (`LeaveEndsExactlyIf`,
  `LeaveCutsOffIff`; run: `ListingCutsOff`).
- Two users get their direct room exactly when no ordinary room bears its name
  (`CreationSucceedsIff`; input: `NameCanBeBlocked`), and once taken the name
  stays taken (`BlockedForEver`). A direct room can have members other than its
  two users: exactly those who used the join endpoint, which refuses private
  rooms only, and have not left (`DirectMembersExactly`; run:
  `DirectRoomCanGrow`).

`PROTOCOL.md:1203-1204` also promises that only members read a room's history.
The history handler does not look at the user at all
(`internal/transport/http/room_handlers.go:471-514`): it serves whoever asks, so
the promise is kept for a user exactly when that user happens to be a member.

## Model

| member | source | states |
|---|---|---|
| `HubTheorems.RunKeeps` | internal/core/hub.go:49-68 | in every run without a panic: the two membership indexes agree, no room is empty, every broadcast went to the members that the joins and leaves before it imply, each feed is in log order and holds exactly what was delivered, each queue stays within 8, every history was the room's newest 20 rows, and the table is its start plus what was broadcast as saved |
| `HubInvariants.StepKeeps` | internal/core/hub.go:49-68 | each single step of the hub keeps all of that |
| `HubTheorems.StepRefinesRelation` | internal/core/hub.go:151-244 | seen through either index, a step changes exactly the intended client-room pairs: a join adds its own, a leave or removal takes its own, nothing else moves |
| `HubTheorems.SenderIsRecipient` | internal/core/hub.go:246-301 | a message passing the sender's room check is broadcast once, to the room's members, the sender among them |
| `HubTheorems.RemovalIsClean` | internal/core/hub.go:304-317 | removal leaves the client in no room and everybody else where they were, and sends the client nothing, so no error branch or blocking send is reached |
| `HubInvariants.LeaveAllKeeps` | internal/core/hub.go:308-310 | leaving the rooms one by one, in any order, while the set shrinks and writers take events in between, keeps the invariant and takes out this client only |
| `HubTheorems.SameOrderForAll` | internal/core/hub.go:335-341 | two clients that both received two broadcasts received them in the same order, that of the log |
| `HubTheorems.BroadcastIsConserved` | internal/core/room.go:36-44 | every broadcast is in a feed, exactly once, exactly for those members of the room whose queue had room when it was made; the others, whose queue was full, missed it; the two groups add up to the members |
| `HubTheorems.QueuesAreBounded` | internal/core/client.go:24-25 | at every broadcast each client's queue held between 0 and 8 events, and what its writer had taken by then only grows |
| `HubTheorems.TakenIsRecorded` | internal/core/room.go:36-44 | the counts of taken events that the log carries are those of the run at the moment of each broadcast, also when writers take events between two broadcasts of one removal |
| `HubEffects.JoinDoes` | internal/core/hub.go:151-215 | a join of no room or of a room one is in answers with that error and does nothing else; any other join adds the client to that room alone, broadcasts its present name to all members with room in their queue, itself included, and then queues it the history if one is due, and nothing else to anybody |
| `HubEffects.HistorySentIff` | internal/core/hub.go:177-211 | after a join that adds the client, a history is queued right behind the client's own join entry if and only if the store is there, finds and lists the room, and the room has messages; its rows are the newest 20 |
| `HubEffects.LeaveDoes` | internal/core/hub.go:217-244 | a leave of an unknown room or of a room one is not in answers with that error and does nothing else; any other takes the client out of that room alone, announces its present name to those who remain, and drops the room exactly if nobody does |
| `HubEffects.SayDoes` | internal/core/hub.go:246-302 | a message without a room or from a non-member answers with that error and does nothing else; any other is broadcast to the members as a message of that room with the text as said and the name given, or the present one if none is; it is saved, with that text, room and user, exactly if the sender is a user and no guest and the store works; the broadcast carries the id of the saved row if it was read, else 0 |
| `HubEffects.RemovalDoes` | internal/core/hub.go:304-317 | a removal announces the client's leaving under its present name in each of its rooms, in the order visited, to the others there |
| `HubEffects.SendDoes` | internal/core/hub.go:153-157 | a blocking send queues its event to that client alone, after one event was taken exactly if 8 were waiting |
| `HubEffects.PerformDoes` | internal/core/hub.go:138-149 | a call handler's send reaches its own client always, and another user exactly if connected with fewer than 8 events waiting; nobody else gets anything |
| `HubEffects.ScriptDelivers` | internal/core/hub.go:346-654 | a client with room for all of them is queued exactly the events a call handler means for it, in order |
| `HubEffects.TakeDoes` | internal/transport/http/ws_handler.go:326-331 | a writer takes one event of its own queue and changes nothing else |
| `HubHistory.EveryBroadcastHasItsCause` | internal/core/hub.go:110-134 | in every run each broadcast was made by one step that accounts for it: that client's join, leave or removal, under its name at that moment, or its message with text, sender, room, saved row and id as in `SayDoes` |
| `HubHistory.HistoryMeetsLive` | internal/core/hub.go:177-211 | a history and the rows saved to the room after it are together the tail of the room's log, without gap or overlap, all history ids smaller; in the feed, older broadcasts come before it and newer after |
| `HubHistory.RoomLogSplit` | internal/core/hub.go:273-289 | what a room's log gains between two points is exactly what the broadcasts between them saved |
| `HubHistory.FeedShowsSaved` | internal/core/hub.go:297-301 | a stretch of a client's feed shows exactly the rows saved to the room in that stretch and received by the client, in order |
| `HubHistory.MemberSeesWholeLog` | internal/core/hub.go:151-211 | from a client's own join entry on, with or without a history, while it stays: every broadcast of the room is addressed to it, its feed shows exactly the rows saved since less those it missed, and if it missed none the room's log is what it was at the join followed by what the feed shows |
| `HubHistory.HistoryFollowsJoin` | internal/core/hub.go:170-211 | a history directly follows the client's own join entry and holds the newest 20 rows the room had then |
| `HubHistory.HistoryThenLive` | internal/core/hub.go:177-211 | so history and live messages together are the tail of the room's log, and all of it if the history was not cut |
| `HubHistory.EventsShowRows` | internal/core/hub.go:265-301 | the message events in a feed show the rows they were saved as, one for one: same text and room, and that id or 0 |
| `HubHistory.MemberIsShownWholeLog` | internal/core/hub.go:151-301 | what a member is shown, in the events themselves: from its own join on, in order and one for one, the rows saved to the room less those it missed; if it missed none, exactly what the room's log has gained since |
| `HubPanics.PanicsIff` | internal/core/hub.go:110-149 | a step sends on or closes a closed channel exactly when it answers a client whose channel is closed: its own command's client, or a user target of a call handler |
| `HubPanics.RegistrationAfter` | internal/core/hub.go:52-66 | what each step does to registration, closed channels, consumers, identities and user targets, and that no other step touches them |
| `HubPanics.OpenKept` | internal/core/hub.go:52-66 | room members stay registered, and channels stay open exactly for registered clients |
| `HubPanics.UsersKept` | internal/core/hub.go:52-66 | while no registered client exchanges the user id it has, user targets are registered clients with that user id; getting an id late, as hello gives it, is allowed |
| `HubPanics.RunOpen` | internal/core/hub.go:304-323 | room members are registered and channels open exactly for registered clients, in every run, whatever happens to user ids |
| `HubPanics.RunUsers` | internal/core/hub.go:52-58 | user targets over every run in which no registered client exchanges the user id it has |
| `HubPanics.RunLabels` | internal/core/hub.go:304-317 | a channel is closed before shutdown exactly for clients the run registered and later unregistered |
| `HubPanics.PanicsExactlyForRemoved` | internal/core/hub.go:110-134 | with no assumption on user ids, a run ends in a panic if and only if its last step answers a client that the run had registered and then unregistered |
| `HubPanics.PanicsOnlyByOwnCommand` | internal/core/hub.go:110-149 | while no registered client exchanges the user id it has, that client is the one whose command is handled |
| `HubPanics.RemovedClientPanics` | internal/core/hub.go:110-134 | a concrete such run |
| `HubPanics.StaleUserPanics` | internal/transport/http/ws_handler.go:401 | a concrete panic when a registered client exchanges its user id |
| `HubImpl.Fanout` | internal/core/room.go:36-44 | the loop offers the event once to each member, drops it at full queues, and panics exactly when a member's channel is closed |
| `HubImpl.CoreHub.constructor` | internal/core/hub.go:35-46 | a new hub is an initial state with an empty run behind it |
| `HubImpl.CoreHub.SendTo` | internal/core/hub.go:153-157 | the send takes the specified step on the queues |
| `HubImpl.CoreHub.SendToUser` | internal/core/hub.go:138-149 | takes the notify step; reports true exactly when the user is connected and the queue has room |
| `HubImpl.CoreHub.BroadcastToRoom` | internal/core/hub.go:335-341 | takes the broadcast step; an unknown room is a no-op |
| `HubImpl.CoreHub.AddClient` | internal/core/room.go:18-24 | adds the pair to both indexes, exactly if absent |
| `HubImpl.CoreHub.TakeOut` | internal/core/room.go:27-33 | removes the pair from both indexes, exactly if present |
| `HubImpl.CoreHub.JoinRoom` | internal/core/hub.go:151-215 | refines the join step, history included |
| `HubImpl.CoreHub.SendHistory` | internal/core/hub.go:177-214 | sends the newest 20 rows of a stored room to the joining client only, exactly when `HubEffects.HistorySentIff` says |
| `HubImpl.CoreHub.LeaveRoom` | internal/core/hub.go:217-244 | refines the leave step, deletion of the empty room included |
| `HubImpl.CoreHub.SendRoomMessage` | internal/core/hub.go:246-302 | refines the message step, whose effect is `HubEffects.SayDoes` |
| `HubImpl.CoreHub.LeaveRooms` | internal/core/hub.go:308-310 | the loop over the shrinking set visits each room once and leaves it, while writers go on taking events |
| `HubImpl.CoreHub.RemoveClient` | internal/core/hub.go:304-317 | refines the removal step for the order it visited |
| `HubImpl.CoreHub.Register` | internal/core/hub.go:52-58 | refines the registration step |
| `HubImpl.CoreHub.Shutdown` | internal/core/hub.go:319-323 | closes exactly the registered clients' channels |
| `HubImpl.CoreHub.HandleCommand` | internal/core/hub.go:110-134 | refines the step of any command, calls included |
| `HubImpl.CoreHub.HandleCall` | internal/core/hub.go:346-508 | a call handler's sends, to its own client or to users, happen in order up to a panic, with writers taking events in between |
| `HubImpl.CoreHub.RunOnce` | internal/core/hub.go:49-68 | one turn of the event loop adds the step of what it received to the run, and the object's state stays what that run makes of an empty hub |
| `HubImpl.CoreHub.TakeEvent` | internal/transport/http/ws_handler.go:326-331 | a writer receives the oldest event of its channel, and the run grows by that step |
| `HubImpl.CoreHub.SetIdentity` | internal/transport/http/ws_handler.go:400-403 | hello sets who a client is, and the run grows by that step |
| `CallHandlers.RespondIsHonest` | internal/core/hub.go:353-508 | whatever a call handler sends, credentials go to the user they are for, who is a participant of the live call they are for |
| `CallHandlers.RespondIsRun` | internal/core/hub.go:353-654 | a call handler changes the call tables by legal service operations alone |
| `CallHandlers.RoomIsRung` | internal/core/hub.go:402-436 | ringing a room notifies exactly its members but the caller of an incoming call, and sends nothing else; a refusal reaches the caller alone |
| `CallHandlers.CallsNeedAUser` | internal/core/hub.go:353-365 | without a call service, or for a guest, a call command answers with that error and changes nothing |
| `CallHandlers.InviteTells` | internal/core/hub.go:378-400 | an invited user hears of an incoming call and the caller that it rings, exactly if the call was created; otherwise the caller gets an error, and nobody anything else |
| `CallHandlers.AcceptTells` | internal/core/hub.go:441-508 | the acceptor gets its own credentials, the initiator hears of the acceptance and gets its own if they were issued; otherwise only an error to the acceptor |
| `CallHandlers.RejectAndEndTell` | internal/core/hub.go:510-560 | a reject tells the initiator that the call was rejected and ended; an end tells the initiator unless that is who ended it; on failure only the caller gets an error, of the right kind |
| `CallHandlers.JoinAndLeaveTell` | internal/core/hub.go:562-620 | joining sends the joiner its own credentials; leaving tells nobody |
| `CallHandlersImpl.TellMembers` | internal/core/hub.go:421-437 | the loop over the members skips the caller only |
| `CallHandlersImpl.ServeAccept` | internal/core/hub.go:441-508 | the accept handler's service calls and sends are the specified ones |
| `CallHandlersImpl.ServeCall` | internal/core/hub.go:353-654 | so are those of every call command, refusals included |
| `Server.PipelineIsFifo` | internal/core/hub.go:92-108 | in every interleaving, what a client sent is what was handled, its part of the shared queue, the consumer's command, its own queue and the waiting one, in that order; capacities 8 and 64 hold; handled is a prefix of sent |
| `Server.SystemRunsTheHub` | internal/core/hub.go:49-68 | the hub inside the whole server makes legal hub runs, on exactly the commands that came through the pipeline |
| `Server.SystemRunsTheRooms` | internal/transport/http/room_handlers.go:45-118 | the room tables inside the server make exactly their own runs |
| `Server.RunRoomsOk` | internal/store/sqlite/sqlite.go:287-319 | in every run the names the hub looks up are those of the stored rooms, one id each |
| `ServerPanics.ServerPanicsExactly` | internal/core/hub.go:49-68 | in every run of the whole server, a panic happens exactly when the command handled answers a client that was registered and unregistered before |
| `ServerPanics.ChatPanicsExactly` | internal/core/hub.go:110-134 | for a chat command: exactly when its own client was removed while it was queued |
| `ServerPanics.QueuedCommandPanics` | internal/core/hub.go:92-134 | a concrete run: a command comes down the pipeline, its client is removed, the command is handled |
| `Admission.NewMemberJoined` | internal/core/hub.go:151-175 | a client enters a room by its own join command only, even in a step that panics |
| `Admission.AuthenticatedIsVouched` | internal/transport/http/ws_handler.go:380-411 | with tokens required, an authenticated connection carries the identity of a token validated on it |
| `Admission.EnqueueNeedsToken` | internal/transport/http/ws_handler.go:127-172 | with tokens required, every enqueued command follows a hello with a valid token on that connection |
| `Admission.SentJoinsAdmitted` | internal/transport/http/ws_handler.go:218-294 | every join enqueued passed the room check when it was read |
| `Admission.MembershipWasAdmitted` | internal/transport/http/ws_handler.go:206-296 | every client-room pair in the hub passed, earlier, the check that the room was public, or private or direct with the client's user a member; with tokens required that user was a validated one |
| `Admission.FeedWasAdmitted` | internal/transport/http/ws_handler.go:206-296 | all broadcasts and histories that a client was ever sent are of rooms that it asked for and was let into |
| `Admission.DirectRoomIsForItsPair` | internal/transport/http/ws_handler.go:225-276 | from any tables at the start: whoever is in the hub room of a pair's direct room was admitted as one of the two, or as a user who was a member at the start or whom the join endpoint had added before |
| `Admission.SavedMessagesAreAuthored` | internal/core/hub.go:265-289 | with tokens required, every saved message is stored under the user of a valid non-guest token from the very connection it came from |
| `Credentials.IdIsVouched` | internal/transport/http/ws_handler.go:380-429 | whether or not tokens are required, a connected client has a user id only from a token validated on its connection |
| `Credentials.TargetIsVouched` | internal/core/hub.go:52-57 | a user's target is a client on whose connection a token of that user was validated |
| `Credentials.CredentialsReachTheirUser` | internal/core/hub.go:138-149 | if call handlers send credentials only to the user they are for, only clients with a validated token of that user were ever queued them |
| `Backend.ServesHonestly` | internal/core/hub.go:110-134 | together with the call and friend services the server makes runs of the server, and its call handlers are honest in that sense |
| `Backend.CredentialsAreForTheirUser` | internal/core/hub.go:441-598 | in every run of the whole backend, call credentials of a user were queued only to clients on whose connection a token of that very user was validated |
| `Backend.RunsTheServices` | internal/core/call_service.go:13-16 | inside the backend the call and friend services carry on their joint runs from whatever run led to the tables at the start |
| `Backend.CallsHadConsent` | internal/service/calls/service.go:62-77 | every direct call in the backend's tables was stored by one step, with consent before it if the callee took calls from friends only |
| `Transport.RateIsBounded` | internal/transport/http/ratelimit.go:21-44 | any stretch of a connection's run with k resets passes on at most (k + 1) * limit joins, or messages |
| `ServerRates.SentIsBounded` | internal/transport/http/ratelimit.go:21-44 | between any two points of any run of the server with k resets of a client's limiter, at most (k + 1) * limit of its joins, or messages, enter the pipeline |
| `ServerReads.RequestGoesOnIff` | internal/transport/http/ws_handler.go:168-294 | in every run, a request that is read adds to what its client sent if and only if: a valid token was presented on the connection or none is needed; a join, leave or message names a room; fewer joins (messages) than the limit were read since the last reset, refused ones included, or there is no limit; a join's room is read, and is public or private or direct with the client's user a member and that read working; and a caller is a user and no guest. It is added as it came, a message under its sender's present name, and nothing else changes in hub, rooms or anybody else's commands |
| `ServerReads.SentIsPassing` | internal/transport/http/ws_handler.go:121-298 | so in every run what a client sent is exactly those of its requests, in the order read |
| `ServerReads.EveryRequestArrivesInOrder` | internal/core/hub.go:92-108 | and they are handled in that order, each once: those handled, then those on the way, of which at most 64 are in the shared queue, one at the consumer, 8 in the client's queue and one at the read loop |
| `ServerReads.AuthenticatedIff` | internal/transport/http/ws_handler.go:127-172 | in every run a connection is authenticated exactly if tokens are not required or a valid one was presented on it |
| `ServerReads.IdentityIs` | internal/transport/http/ws_handler.go:380-429 | in every run a client is who its connection and its accepted hellos make it: a valid token gives the whole identity; where none is required any other hello makes a guest under the given name who keeps the user id; a refused hello changes nothing |
| `ServerReads.CounterIs` | internal/transport/http/ratelimit.go:21-44 | in every run a limiter's counter is the number of requests of its kind read since its last reset |
| `ServerReads.ConnectedIff` | internal/transport/http/ws_handler.go:121-152 | in every run a client is being read from exactly if it connected and sent no unreadable frame since |
| `Transport.PassedWithinQuota` | internal/transport/http/ws_handler.go:174-205 | sharper: at most the quota left plus k * limit |
| `Transport.RefusedAttemptsCount` | internal/transport/http/ratelimit.go:21-27 | refused attempts use up quota: once it is spent nothing passes until a reset |
| `Transport.RateLimiter.constructor` | internal/transport/http/ratelimit.go:11-19 | a limit of zero or less means none |
| `Transport.RateLimiter.Allow` | internal/transport/http/ratelimit.go:21-27 | counts the attempt and answers by the new count |
| `Transport.RateLimiter.Reset` | internal/transport/http/ratelimit.go:36-37 | zeroes the count, keeps the limit |
| `Transport.Connection.Read` | internal/transport/http/ws_handler.go:154-166 | one iteration of the read loop is the specified decision, hello included |
| `Transport.Connection.ReadRequest` | internal/transport/http/ws_handler.go:168-294 | takes the specified decision, which is `ServerReads.RequestGoesOnIff` |
| `Messages.WalkCoversLog` | internal/store/sqlite/sqlite.go:549-594 | asking for older and older pages, while messages are being saved, ends and yields the room's log at the first request, each row once |
| `Messages.BeforeCut` | internal/store/sqlite/sqlite.go:555-570 | the cursor at a row keeps exactly the rows older than it |
| `Messages.BeforeGrows` | internal/store/sqlite/sqlite.go:529-546 | rows saved later lie above every earlier cursor |
| `Messages.HandlerPageIs` | internal/transport/http/room_handlers.go:502-514 | has_more is true exactly when more than limit rows precede the cursor, and the page then lacks the newest of them |
| `Messages.HandlerPageNewestIff` | internal/transport/http/room_handlers.go:511-514 | which rows: the page holds the newest limit rows exactly when nothing more remains |
| `Messages.DocumentedPageIff` | PROTOCOL.md:1193-1195 | rows and order: the page is the newest limit rows with the newest first exactly when at most one row precedes the cursor |
| `Messages.HandlerSkipsNewest` | internal/transport/http/room_handlers.go:502-514 | a concrete input: of two messages the handler returns the older when asked for one, and the older first when asked for two |
| `Messages.DocumentedCursorBarelyMoves` | PROTOCOL.md:1197-1201 | the documented next cursor leaves all but two rows to page through again |
| `Messages.HandlerWalkLoses` | internal/transport/http/room_handlers.go:502-514 | following has_more yields n - n / (limit + 1) of n rows, all of them only if they fit on one page |
| `Messages.MessageStore.SaveMessage` | internal/store/sqlite/sqlite.go:529-546 | appends one row under a fresh id above all others, or changes nothing; if the new id cannot be read the row stays and the caller gets an error |
| `Messages.MessageStore.QueryNewestFirst` | internal/store/sqlite/sqlite.go:553-588 | the rows of the query, reversed, are the page |
| `Messages.MessageStore.ListMessages` | internal/store/sqlite/sqlite.go:549-594 | the newest limit rows before the cursor, oldest first |
| `Messages.ReverseInPlace` | internal/store/sqlite/sqlite.go:590-593 | the slice is reversed |
| `Messages.GetMessages` | internal/transport/http/room_handlers.go:471-514 | the handler's page and has_more, for any limit and cursor parameter |
| `Messages.HandlerLimit` | internal/transport/http/room_handlers.go:481-492 | what was asked for if between 1 and 100, 100 if more, 50 otherwise |
| `Friends.OneRowKeptIff` | internal/service/friends/service.go:34-73 | an operation gives a pair a second row exactly when it inserts for that pair while its lookup failed and the reverse row existed |
| `Friends.RunOneRowIff` | internal/service/friends/service.go:34-73 | a run keeps one row for a pair throughout exactly when no insert for that pair was blind, whatever happens to other pairs |
| `Friends.UniqueKeptIff` | internal/service/friends/service.go:34-73 | the same for all pairs at once: one operation |
| `Friends.RunUniqueIff` | internal/service/friends/service.go:34-73 | and a whole run |
| `Friends.LookupAgrees` | internal/store/sqlite/sqlite.go:699-723 | with one row for the pair, GetFriendship is symmetric and agrees with IsFriend |
| `Friends.LookupContradictsIff` | internal/store/sqlite/sqlite.go:769-784 | they can disagree exactly when both directions are stored and one of them is accepted |
| `Friends.BlindInsertContradicts` | internal/service/friends/service.go:126-158 | a concrete run: friends, then a block whose lookup fails, and the two queries disagree |
| `Friends.HalfBlockIff` | internal/service/friends/service.go:141-157 | exactly which failures make a block leave a pending request |
| `Friends.HalfBlockBefriends` | internal/service/friends/service.go:126-158 | such a request can be accepted into a friendship |
| `Friends.PendingOrigin` | internal/service/friends/service.go:34-73 | in every run, whatever fails, a pending row was stored by its owner, by a request or a half-way block, and is untouched since |
| `Friends.FriendsConsented` | internal/service/friends/service.go:76-98 | in every run, whatever fails, each friendship was stored as a request by one and later accepted by the other, and no other step touched its row since |
| `Friends.FriendsConsentedFully` | internal/service/friends/service.go:76-158 | without blind inserts for the pair and half-way blocks by the row's owner, it was sent as a request and the other side has had no row since, so no block; other pairs do not matter |
| `Friends.BlockLostIff` | internal/service/friends/service.go:126-174 | for a pair with one row, exactly when one step ends its block: its owner unblocks, or a counter-block fails half-way |
| `Friends.BlockOutlasts` | internal/service/friends/service.go:126-174 | without blind inserts and half-way counter-blocks within the pair, a block that is gone was lifted by its owner of that moment, whatever happens to other pairs |
| `Friends.CounterBlockLifts` | internal/service/friends/service.go:141-157 | a concrete run: the counter-block fails half-way, the block is gone and a request is left |
| `FriendEffects.SendDoes` | internal/service/friends/service.go:34-73 | for every combination of failures: a request succeeds exactly between two users of whom the lookup shows no row, if the insert and its read-back work, and is then pending; otherwise the answer says why |
| `FriendEffects.AcceptDoes` | internal/service/friends/service.go:76-98 | an accept succeeds exactly if the lookup shows a pending row directed to the caller and the update works; then that row alone is accepted |
| `FriendEffects.RejectDoes` | internal/service/friends/service.go:101-123 | a reject succeeds exactly if the lookup shows a pending row directed to the caller and the delete works; then that row alone is gone |
| `FriendEffects.BlockDoes` | internal/service/friends/service.go:126-158 | exactly when a block succeeds, over all failures; the caller's row is then blocked and, for a pair with one row, the reverse row is gone and the two are no friends |
| `FriendEffects.BlockBlocks` | internal/service/friends/service.go:126-158 | a block that answers with success has stored the caller's row as blocked, whatever was stored before |
| `FriendEffects.UnblockDoes` | internal/service/friends/service.go:161-174 | an unblock succeeds exactly if the lookup shows the caller's own block and the delete works; then that row alone is gone |
| `FriendEffects.LifeOfAPair` | internal/service/friends/service.go:34-174 | with the store working: strangers become friends by request and the other side's accept, stay strangers by reject, and either can block |
| `FriendEffects.BlockedMeansBarred` | internal/service/friends/service.go:34-174 | a block ends the friendship, bars requests of both sides, and only its owner can lift it, leaving no row |
| `FriendsImpl.FriendService.QueryFriendship` | internal/store/sqlite/sqlite.go:699-723 | some row of the pair if there is one |
| `FriendsImpl.FriendService.CreateFriendRequest` | internal/store/sqlite/sqlite.go:632-648 | inserts unless the key exists; a failed read-back leaves the row |
| `FriendsImpl.FriendService.UpdateFriendStatus` | internal/store/sqlite/sqlite.go:678-696 | changes one row's status; or fails and changes nothing; or changes it and reports an error, when the row count cannot be read |
| `FriendsImpl.FriendService.DeleteFriendship` | internal/store/sqlite/sqlite.go:787-796 | deletes one row, or fails and changes nothing |
| `FriendsImpl.FriendService.SendRequest` | internal/service/friends/service.go:34-73 | takes the request step, all refusals included; the table stays what the operations so far make of an empty one |
| `FriendsImpl.FriendService.AcceptRequest` | internal/service/friends/service.go:76-98 | takes the accept step; the table stays what the operations so far make of an empty one |
| `FriendsImpl.FriendService.RejectRequest` | internal/service/friends/service.go:101-123 | takes the reject step; the table stays what the operations so far make of an empty one |
| `FriendsImpl.FriendService.BlockUser` | internal/service/friends/service.go:126-158 | takes the block step, whose effect is `FriendEffects.BlockDoes`, with its delete, insert and update; the table stays what the operations so far make of an empty one |
| `FriendsImpl.FriendService.UnblockUser` | internal/service/friends/service.go:161-174 | takes the unblock step; the table stays what the operations so far make of an empty one |
| `Calls.RunKeeps` | internal/service/calls/service.go:214-414 | in every run, whatever fails: status only moves forward and ended is final, ended_at is set iff ended, the external room is kept, participants only grow, joined_at is write-once, each room has at most one live call, a direct call has at most two distinct parties |
| `Calls.StepKeeps` | internal/service/calls/service.go:214-414 | each operation keeps all of that |
| `CallPresence.DirectPartiesAreNamed` | internal/service/calls/service.go:90-117 | in every run, whatever fails, a direct call was stored by one create step whose caller is its initiator, and all its participants are that step's caller and callee |
| `CallTheorems.RoomCallIsShared` | internal/service/calls/service.go:143-202 | while a room has a live call, CreateRoomCall stores no other and returns that one or an error |
| `CallTheorems.CredentialsNeedParticipation` | internal/service/calls/service.go:214-285 | credentials name the call's own room and go to a participant of a live call; a newcomer was a member of the call's room |
| `CallTheorems.RoomPartsWereMembers` | internal/service/calls/service.go:134-163 | over every run, each participant of a room call was a room member at the step that added them |
| `CallTheorems.FriendsOnlyNeedsAcceptedRow` | internal/service/calls/service.go:62-77 | a call to a friends-only user is stored only between friends; with one row for the pair, that row is accepted |
| `Social.FriendCallHadConsent` | internal/service/calls/service.go:62-77 | in every joint run of both services, whatever fails, a direct call to a friends-only user is stored only after one of the two asked and the other accepted, and nothing touched that friendship since |
| `Social.StoredCallsHadConsent` | internal/service/calls/service.go:47-117 | so for every stored direct call, at the step that stored it |
| `CallTheorems.RunStatus` | internal/service/calls/service.go:256-270 | for a call whose own operations find the store working, whatever fails for others: the initiator takes part, ringing means nobody joined, active means somebody did, live means somebody has not left |
| `CallPresence.MarksTellWhoLeft` | internal/service/calls/service.go:376-390 | in every run, whatever fails, left_at of a live call is set exactly for those who left at least once |
| `CallTheorems.LeaveEndsIff` | internal/service/calls/service.go:376-414 | exactly when leaving ends a live call, for every combination of failures |
| `CallTheorems.LeaveCutsOffIff` | internal/service/calls/service.go:392-399 | a call is ended under a remaining participant exactly when the listing fails before showing one |
| `CallPresence.LeaveEndsExactlyIf` | internal/service/calls/service.go:376-414 | for every run and every combination of failures: leaving ends a live call exactly when its own reads and writes succeed and all others whom the listing shows left at least once |
| `CallPresence.EndsUnderSomebodyIff` | internal/service/calls/service.go:391-411 | with the store working, leaving ends a call under somebody who joined and has not left since, exactly when there is such a person and every other participant left at least once |
| `CallPresence.RejoinIsForgotten` | internal/service/calls/service.go:256-270 | a concrete run: create, join, join, leave, join again, the other leaves, and the call ends under the first |
| `CallPresence.ListingCutsOff` | internal/service/calls/service.go:391-399 | a concrete run: the listing fails at once and the call ends under the one still in it |
| `CallTheorems.AcceptJoinsBoth` | internal/core/hub.go:441-508 | in every run, after an accept of a call whose operations find the store working, the call is active and acceptor and initiator have joined |
| `CallEffects.CreateDirectDoes` | internal/service/calls/service.go:47-120 | exactly when a direct call is created, over all failures, the answer in each refused case, and what is stored: a ringing call of that caller and both as participants |
| `CallEffects.CreateInRoomDoes` | internal/service/calls/service.go:123-202 | exactly when a room call is answered: with the room's live call and the caller a participant, or with a new ringing one |
| `CallEffects.JoinDoes` | internal/service/calls/service.go:214-285 | credentials are issued exactly to a participant, or to a member of the call's room who can be added, of a live call; the first join is marked and a ringing call becomes active, as far as those writes work; the answer in each refused case |
| `CallEffects.EndDoes` | internal/service/calls/service.go:288-323 | End ends a live call if and only if it can be read and written and the user is a participant or the initiator; the answer in each case; a call that is over is left alone |
| `CallEffects.RejectDoes` | internal/service/calls/service.go:335-373 | a reject succeeds exactly for a participant of a ringing call that can be read and written; the call is then over and the user marked as gone; the answer in each refused case |
| `CallEffects.LeaveDoes` | internal/service/calls/service.go:376-414 | leaving succeeds exactly for a participant whose row can be read and written, and marks that row |
| `CallEffects.EveryEndHasItsCause` | internal/service/calls/service.go:288-414 | in every run, whatever fails: a call that is over was ended while live by a participant or its initiator, by a participant's reject while it rang, or by the leave of the last of those listed who had not left |
| `CallsImpl.CallService.CreateDirectCall` | internal/service/calls/service.go:47-120 | takes the create step, all refusals included; the tables stay what the operations so far make of empty ones |
| `CallsImpl.CallService.FindActive` | internal/store/sqlite/sqlite.go:944-991 | some live call of the room, or none if there is none |
| `CallsImpl.CallService.CreateRoomCall` | internal/service/calls/service.go:123-202 | takes the create step for the call it found; the tables stay what the operations so far make of empty ones |
| `CallsImpl.CallService.GetJoinInfo` | internal/service/calls/service.go:214-285 | takes the join step, ignoring the two best-effort writes as the source does; the tables stay what the operations so far make of empty ones |
| `CallsImpl.CallService.EndCall` | internal/service/calls/service.go:288-323 | takes the end step, whose effect is `CallEffects.EndDoes`; the tables stay what the operations so far make of empty ones |
| `CallsImpl.CallService.RejectCall` | internal/service/calls/service.go:335-373 | takes the reject step; the tables stay what the operations so far make of empty ones |
| `CallsImpl.CallService.ScanAllLeft` | internal/service/calls/service.go:390-400 | the flag is true exactly when every listed row has left |
| `CallsImpl.CallService.LeaveCall` | internal/service/calls/service.go:376-414 | takes the leave step; the tables stay what the operations so far make of empty ones |
| `Rooms.PrintRoundTrip` | internal/transport/http/room_handlers.go:442 | decimal printing parses back and never contains the separator |
| `Rooms.DirectKeyIff` | internal/transport/http/room_handlers.go:433-442 | two pairs share a key exactly when they are the same unordered pair |
| `Rooms.RoomNameInjective` | internal/store/sqlite/sqlite.go:417 | two ordered pairs with the same room name are the same, minus signs included |
| `Rooms.RunKeeps` | internal/store/sqlite/sqlite.go:395-453 | in every run names are unique, direct rooms have no owner and carry name and key of one pair, no other room has a key, and stored rooms do not change |
| `Rooms.OneRoomPerPair` | migrations/002_add_direct_key.sql:7 | at most one direct room per pair, whichever order names it |
| `Rooms.CreationIsSymmetric` | internal/transport/http/room_handlers.go:433-445 | creation does not depend on who asks |
| `Rooms.CreationIsAtomic` | internal/store/sqlite/sqlite.go:395-453 | creation changes nothing, or adds the room under the pair's key with both members |
| `Rooms.CreationDoes` | internal/transport/http/room_handlers.go:426-449 | over all failures, who gets a direct room and what is stored: nobody with oneself; the room found if there is one; else a new one with the pair's name, key and members, exactly if no ordinary room bears the name and the transaction goes through |
| `Rooms.CreationIsIdempotent` | internal/store/sqlite/sqlite.go:395-405 | in any later state, either user's creation returns the same room and changes nothing |
| `Rooms.CreationSucceedsIff` | internal/store/sqlite/sqlite.go:415-426 | with the store working, two users get their direct room exactly when no ordinary room bears its name |
| `Rooms.BlockedForEver` | migrations/001_init.sql:17 | once an ordinary room bears the name, creation fails in every later state |
| `Rooms.NameCanBeBlocked` | internal/transport/http/room_handlers.go:84 | one room creation does that |
| `Rooms.CreateDoes` | internal/transport/http/room_handlers.go:45-118 | an ordinary room is stored exactly if its name is free, public or private as asked, under its creator as owner, who becomes a member exactly if it is private and that write works |
| `Rooms.CreatedRow` | internal/transport/http/room_handlers.go:45-118 | only the two creating operations store rooms, and what they store is what was asked for |
| `Rooms.MembersExactly` | internal/transport/http/room_handlers.go:162-376 | in every run from any tables, for rooms of every kind: a user is a member exactly if some step made the user one, or the user was one at the start, and no step took the user out since |
| `Rooms.PrivateMembersByOwner` | internal/transport/http/room_handlers.go:258-376 | for a private room those steps are: its owner's creating and adding; its owner's removing and the user's own leaving |
| `Rooms.DirectMembersExactly` | internal/transport/http/room_handlers.go:162-256 | in every run from any tables: a user is a member of a direct room exactly if the room was made for that user or the user joined the stored room through the join endpoint, or was a member at the start, and has not left since |
| `Rooms.DirectMembers` | internal/transport/http/room_handlers.go:162-213 | so its members are its two users, users of the join endpoint, and members at the start |
| `Rooms.DirectRoomCanGrow` | internal/transport/http/room_handlers.go:195-203 | a concrete run in which the join endpoint adds a third |
| `Rooms.RoomStore.FindByKey` | internal/store/sqlite/sqlite.go:359-392 | a room with the key, or none if there is none |
| `Rooms.RoomStore.CreateDirectRoom` | internal/store/sqlite/sqlite.go:395-453 | takes the transaction step: tables change at commit only |
| `Rooms.RoomStore.HandleCreateDirect` | internal/transport/http/room_handlers.go:426-449 | takes the handler step on the ordered pair |

## Left out

- Liveness and cleanup: direct sends can block and register or unregister requests may be dropped (internal/core/hub.go:72-90), so only safety is claimed.
- Aliasing: `Client` and `Room` objects are represented by their identity, with their fields as entries of the hub's maps; two names for one object are not modelled.
- Interleavings inside one service method or one REST handler.
- Usernames and room names in events, timestamps, call reasons and call mode: they decide nothing in the modelled operations.
- `ListFriends`, `ListPendingRequests`, `ListActiveCalls`, `IsFriend` of the service and the other read-only listings: they filter rows and would only add easy members.
- JWT, bcrypt, UUID, LiveKit and WebSocket framing: a token is valid or not, an id is a parameter, a frame is already decoded.
- The mapper's field checks: a request with missing fields is one kind of frame.
- The unsynchronised access of the reset goroutine to the limiter's counter, and overflow of that counter.
- Other REST handlers, configuration, logging and command-line wiring.
- HandleCommand: takes what a call command sends as a parameter, because it depends on the call service; `CallHandlers` says what it is, and `Backend` puts the two together.
