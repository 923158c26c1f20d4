# webinars-socket core in Dafny

This project models the signalling server of webinars-socket. The server is a
WebSocket process that runs webinar rooms on a mediasoup SFU. In each room one
producer publishes audio and video tracks, and consumers join the room and
subscribe to them. The model covers two source files:

- `room.js`, the room (`Rooms.Room`). A room holds its users, transports,
  producers and chat log, its router and worker handles, its activity state and
  the producer's reconnection timer.
- `actions.js`, the server (`Actions.Server`). The server holds the room
  registry `rooms`, the set of used SSRCs, each connection's `currentRoom`, and
  every route handler with its helpers (`send`, `generateUserResponse`,
  `generateUniqueSSRC`, `muteMicro`). It also holds the `routes` table.

The model makes these choices:

- Users are value records (`Rooms.User`) kept in the room's `users` sequence.
  A `set…`/`add…` method of the room replaces the record of that connection.
- Messages are kept as data. Everything the server sends is appended to
  `Server.outbox` as an `Envelope`.
- Engine effects are kept as data too. Every close, pause, resume or connect
  call into mediasoup is appended to `Server.engineLog` as an `EngineCall`.
- Room methods that send or close return what they send or close, and the
  server appends it to its log.
- Almost every `ws.send` and `close` in the source has its own `try`/`catch`,
  so a failed send or close never changes what happens next. Three calls run
  under their handler's single `try` instead: the `ws.send` at
  `actions.js:287`, the `producer.close()` at `actions.js:314` and the
  `ws.send` at `actions.js:323`. Each is the last action of its handler, so a
  throw there skips nothing either. The outbox and the log therefore record
  attempts.
- Results that come from outside the core are parameters. Router creation,
  transport ids, producer ids, consumer ids, `canConsume`, the uuid of a new
  room, the clock and the random SSRC draws are all passed in. `None` stands
  for a call that throws.

The proved properties include:

- No connection ever has two user records in a room.
- A broadcast reaches every other member exactly once, and nobody outside the
  room.
- `generateUniqueSSRC` returns the first unused draw and records it.
- Consuming in `handleCreateConsumer`:
  - it attempts exactly the eligible producers the user did not listen to yet,
    in room order, up to the first consume that throws;
  - a second run right after a complete one attempts nothing.
- `muteMicro` pauses or resumes exactly the audio producers.
- The track types sent on reconnect are the distinct non-audio appointments.
- Destroying a room closes every producer, consumer and transport of every
  user, then the router and the worker.
- `send` derives the message type from the route: `split('/')` and `join`
  round-trip, and `'/' + name` yields `name`.
- Every routed handler has exactly one route. `handleLeaveUser` and
  `handleTimeoutRemoveRoom` are not in `routes`.
- Every SSRC a registered producer streams with is recorded as used, so
  `handleCreateProducer` never gives a new producer the SSRC of a live one.

## Model

| member | source | states |
|---|---|---|
| Seqs.Find | actions.js:198 | a found index is in range and its element satisfies the predicate (`find`/`some`) |
| Seqs.FindSpec | room.js:55 | the index found is the first match, and nothing is found exactly when no element matches |
| Seqs.FindSome | room.js:81 | if the element at i matches, something is found, at i or earlier |
| Seqs.Filter | room.js:240-244 | filtering never lengthens the sequence |
| Seqs.FilterSpec | room.js:240-244 | everything `filter` keeps comes from the input and satisfies the predicate |
| Seqs.FilterKeeps | room.js:240-244 | no element that satisfies the predicate is dropped |
| Seqs.FilterConcat | actions.js:205-207 | filtering distributes over concatenation |
| Seqs.FilterSnoc | actions.js:205-207 | one more element is kept exactly when it satisfies the predicate |
| Seqs.FilterStep | actions.js:212-248 | filtering a prefix one element longer adds at most that element |
| Seqs.FilterKeepsAll | room.js:240-244 | a predicate that holds everywhere keeps the sequence whole |
| Seqs.Count | room.js:189 | a count is at most the length, and is zero exactly when nothing matches |
| Seqs.CountConcat | room.js:188-205 | counts add up over concatenation |
| Seqs.Distinct | actions.js:378 | `[...new Set(xs)]` has no repetitions and holds exactly the elements of xs |
| Seqs.DistinctOfDistinct | actions.js:378 | de-duplicating a sequence without repetitions leaves it unchanged |
| Seqs.DistinctFirstOccurrence | actions.js:378 | each element keeps the place of its first occurrence: what comes before it in the result is the de-duplication of what came before it in the input |
| Seqs.DistinctFirstEarlier | actions.js:378 | the case of first-occurrence order where the element occurs before the last position |
| Seqs.IndexIn | actions.js:378 | `indexOf` gives a position holding x with no earlier x |
| Seqs.IndexInPrefix | actions.js:378 | in a prefix that contains x, x has the same index as in the whole sequence |
| Seqs.IndexInLast | actions.js:378 | an element found only at the last position has the last index |
| Protocol.RouteType | actions.js:23 | the type taken from segment 1 of the route never contains '/' |
| Protocol.Split | actions.js:23 | `split` gives at least one part, no part contains the separator, and joining the parts gives the input back |
| Protocol.JoinCons | actions.js:23 | putting a character in front of the first part puts it in front of the joined string |
| Protocol.SplitNoSeparator | actions.js:23 | a string without the separator splits into itself alone |
| Protocol.SplitAtFirst | actions.js:23 | splitting cuts at the first separator and splits the rest the same way |
| Protocol.SplitJoin | actions.js:23 | joining parts that contain no separator, then splitting, gives the parts back |
| Protocol.RouteTypeOfSlashName | actions.js:21-29 | the route "/name" sends messages of type name |
| Protocol.ReplyIsTyped | actions.js:21-29 | a reply on "/name" goes on the wire like a message typed name with the same payload |
| Protocol.RouteTypeWithoutSlash | actions.js:23 | a route without '/' has no segment 1 and so yields no type |
| Rooms.Admit | room.js:54-68 | after `addUser` the connection has a record; an existing record is left as is; otherwise one new empty record is appended |
| Rooms.Replace | room.js:89-94 | updating a connection's record keeps the number of records |
| Rooms.ReplaceSpec | room.js:155-161 | updating a record leaves every other connection's record untouched and keeps every record on its own socket |
| Rooms.ReplaceFind | room.js:80-82 | after an update, `getUser` finds the record at the same place, and it is the updated one |
| Rooms.ReplaceTwice | room.js:148-153 | two updates of the same connection's record amount to the second one |
| Rooms.AdmitFind | room.js:54-68 | after `addUser`, `getUser` yields the earlier record if there was one, or else a new empty record |
| Rooms.FindProducerById | room.js:171-174 | a producer that is found has the requested id |
| Rooms.FindProducerByIdSpec | room.js:171-174 | a producer is found exactly when some entry has that id, and it is the first such entry |
| Rooms.AdmitKeepsUnique | room.js:54-68 | `addUser` never gives a connection a second record |
| Rooms.ReplaceKeepsUnique | room.js:155-161 | updating a record keeps one record per connection |
| Rooms.OneRecordEach | room.js:54-68 | with unique sockets a connection has exactly one record when it is found, and none otherwise |
| Rooms.AddUserExactlyOnce | room.js:54-68 | after any series of `addUser` calls that includes ws, ws has exactly one record and sockets stay unique |
| Rooms.ProducerCloses | room.js:215-221 | one close per producer, in order, each on that producer's id |
| Rooms.ConsumerCloses | room.js:223-229 | one close per consumer, in order, each on that consumer's id |
| Rooms.ClosesCoverUser | room.js:211-296 | both removal and destroy close every producer, every consumer and the transport of the user, and nothing more |
| Rooms.DestroyClosesEveryUser | room.js:270-296 | whatever destroy closes for one user is among the closes of the whole room |
| Rooms.FanoutSpec | room.js:188-205 | a broadcast sends only the given message, never to the excluded socket, only to members, and reaches every member that is not excluded |
| Rooms.Fanout | room.js:188-205 | a broadcast sends at most one message per member |
| Rooms.FanoutExactlyOnce | room.js:188-205 | with unique sockets a connection gets exactly one copy if it is a member and not excluded, and none otherwise |
| Rooms.UniqueInit | room.js:188-205 | dropping the last record keeps sockets unique, and that socket is on no other record |
| Rooms.CountTail | room.js:188-205 | the last member's share of a broadcast reaches only that member, unless it is excluded |
| Rooms.FanoutMissesStrangers | room.js:188-205 | a connection that is not a member receives nothing |
| Rooms.FindSnoc | room.js:54-68 | after a record is appended, a connection is found exactly when it was found before or is the appended one |
| Rooms.CloseProducers | room.js:215-221 | the producer-closing loop issues exactly the producer closes |
| Rooms.CloseConsumers | room.js:223-229 | the consumer-closing loop issues exactly the consumer closes |
| Rooms.Teardown | room.js:272-296 | destroy's per-user body closes consumers, then producers, then the transport |
| Rooms.TeardownAll | room.js:270-296 | destroy's loop over users issues each user's teardown, in order |
| Rooms.CloseAll | room.js:270-314 | destroy closes every user's media, then the router if there is one, then the worker if there is one |
| Rooms.UserOf | room.js:80-82 | a record that `getUser` finds belongs to ws |
| Rooms.UserOfSpec | room.js:80-82 | `getUser` finds a record exactly when ws has one, and that record is in the room |
| Rooms.TransportOfSpec | room.js:84-87 | with one record per connection the transport found is the one on ws's record; a connection without a record has none; a transport found is on a record of ws |
| Rooms.ReplaceUserOf | room.js:155-161 | after ws's record is updated, `getUser(ws)` yields the new record |
| Rooms.ReplaceSelf | room.js:155-161 | writing back a record unchanged leaves the users unchanged |
| Rooms.FilterKeepsUnique | room.js:240-244 | removing records keeps one record per connection |
| Rooms.Room.constructor | room.js:8-20 | a new room has its id, no users, transports, producers or messages, no router, worker or producer id, is live, and has no timer |
| Rooms.Room.InitializeRouter | room.js:22-52 | the room holds the worker and the router the engine made |
| Rooms.Room.GetUser | room.js:80-82 | yields the record of ws, or none |
| Rooms.Room.GetTransport | room.js:84-87 | yields the transport lookup that `Rooms.TransportOfSpec` characterises: the transport on ws's record, or none when ws has no record |
| Rooms.Room.AddUser | room.js:54-68 | afterwards ws has exactly one record: the old one, or else a new empty one; sockets stay unique |
| Rooms.Room.SetProducerId | room.js:70-72 | records the producer's user id |
| Rooms.Room.PutUser | room.js:155-161 | writes ws's record back and keeps sockets unique |
| Rooms.Room.AddListenProducersForConsumer | room.js:89-94 | appends the producer id to ws's listen list; a missing user changes nothing |
| Rooms.Room.CreateTransport | room.js:100-117 | the new transport is unconnected, on ws, listed in the room and set on ws's record if it has one |
| Rooms.Room.SaveProducer | room.js:139-146 | lists the producer in the room under ws and appends it to ws's record if it has one |
| Rooms.Room.AddConsumer | room.js:148-153 | appends the consumer to ws's record; a missing user changes nothing |
| Rooms.Room.SetInfo | room.js:155-161 | sets the role and user id on ws's record; a missing user changes nothing |
| Rooms.Room.SetName | room.js:183-186 | sets the name on ws's record and keeps everything else |
| Rooms.Room.SetActiveRoom | room.js:163-165 | sets the activity state |
| Rooms.Room.SendMessage | room.js:176-181 | appends a chat entry stamped with the time as both time and id, and returns it |
| Rooms.Room.Broadcast | room.js:188-196 | sends the message to every member but the excluded socket, in member order |
| Rooms.Room.BroadcastAll | room.js:197-205 | sends the message to every member, in member order |
| Rooms.Room.RemoveUser | room.js:211-245 | a member's producers, consumers and transport are closed and every entry on ws is filtered out; a stranger changes nothing; afterwards ws has no record |
| Rooms.Room.StartProducerTimeout | room.js:248-259 | a timer handle is held and its callback is pending |
| Rooms.Room.ClearProducerTimeout | room.js:261-266 | no timer is held or pending |
| Rooms.Room.Destroy | room.js:268-328 | closes all media of all users, then the router and the worker, and empties the room's lists, handles, producer id, leave time and timer |
| Actions.FirstFree | actions.js:11-19 | the loop stops at the first draw not in use, and every draw before it is in use |
| Actions.FreeInTail | actions.js:13-15 | a used first draw leaves a free draw further on |
| Actions.Decimal | actions.js:262 | the time prints as digits with no leading zero |
| Actions.DecimalValue | actions.js:262 | the printed time reads back as the same number |
| Actions.ProducerIds | actions.js:205-206 | `map(data => data.producer.id)` keeps order and length |
| Actions.OkPrefix | actions.js:212-248 | the consumes that succeed form the longest prefix of accepted ids |
| Actions.OkPrefixAll | actions.js:212-248 | when every consume succeeds, the whole list is consumed |
| Actions.OkPrefixStop | actions.js:226-230 | a consume that throws after accepted ids ends the run at that point |
| Actions.PlanConsume | actions.js:212-248 | a consumer is created only with a transport, and only for an id the engine accepted |
| Actions.PlanShape | actions.js:224-236 | the created consumers are a prefix of the attempts; at most one attempt more than the successes, and that one is a consume that threw |
| Actions.PlanQualifies | actions.js:205-224 | every attempted id is a producer of the room, was not listened to, and can be consumed |
| Actions.CandidatesQualify | actions.js:205-223 | every candidate is a producer of the room that the user does not listen to and that can be consumed |
| Actions.ConsumeAllEligible | actions.js:193-252 | when no consume throws, the user consumes a producer exactly when it is in the room, not listened to and consumable |
| Actions.PlanConsumesAll | actions.js:212-248 | when no consume throws, every candidate is both attempted and consumed |
| Actions.CandidatesConsumed | actions.js:226-230 | when the engine accepts every consumable producer, every candidate gets its consumer |
| Actions.EligibleIsCandidate | actions.js:205-223 | a producer of the room that is not listened to and is consumable is a candidate |
| Actions.RepeatConsumeIsEmpty | actions.js:201-207 | a second `create-consumer` after a complete one attempts nothing |
| Actions.NeverReattempted | actions.js:224 | no later run attempts an id again, since the id is pushed to the listen list before the consume |
| Actions.NewConsumers | actions.js:236 | one consumer record per created id, in order |
| Actions.ConsumerNotices | actions.js:238-247 | one `/createConsumer` reply per created id, in order |
| Actions.MuteCalls | actions.js:290-298 | one pause (mute) or resume call per id, in order |
| Actions.MuteReachesAudioOnly | actions.js:288-298 | a producer is paused or resumed exactly when it is an audio producer of the room |
| Actions.Appointments | actions.js:378 | the appointments of the producers, in order |
| Actions.TracksTypeListsAppointments | actions.js:378 | the track types have no repetitions and are exactly the appointments other than audio |
| Actions.ClearConsumers | actions.js:380-382 | clearing consumers keeps the number of users |
| Actions.ClearConsumersSpec | actions.js:380-382 | every user keeps everything but the consumer list, which is empty |
| Actions.EnrolledSpec | actions.js:31-54 | enrolment keeps sockets unique, adds a record only for a new connection, leaves other records alone, and gives ws a record with the name, role, user id and new transport while its media lists are kept |
| Actions.EveryHandlerRouted | actions.js:403-416 | every handler is reached by the route that names it |
| Actions.RoutesAreOneToOne | actions.js:403-416 | every route names its own handler, and leaving has no route |
| Actions.Enrol | actions.js:260-267 | `addUser`, `setName`, `setInfo` and `createTransport` produce the enrolled users, with one transport more when the engine makes one |
| Actions.ClearAllConsumers | actions.js:380-382 | the loop empties every user's consumer list and changes nothing else |
| Actions.Server.constructor | actions.js:4-9 | the registry, the SSRC set, the connection state and the logs start empty |
| Actions.Server.Send | actions.js:21-29 | one reply to ws on the route, with the route's type |
| Actions.Server.GenerateUniqueSSRC | actions.js:11-19 | the SSRC returned was not in use, is the first free draw, and is now recorded as used |
| Actions.Server.GenerateUserResponse | actions.js:31-54 | enrols ws as "PRODUCER" with role producer, records the producer id and ws's room, and answers with the transport and router, or nothing if the transport failed |
| Actions.Server.HandleCreateRoom | actions.js:56-82 | an id in use gets an error; a router failure changes nothing; otherwise a fresh room with the engine's handles and the producer enrolled is registered and `/roomCreated` is sent |
| Actions.Server.OpenRoom | actions.js:63-73 | once the router exists, the room is registered under its id with the engine's handles, the creator is enrolled as producer, and `/roomCreated` carries the response |
| Actions.Server.HandleCreateProducer | actions.js:84-133 | without a room or a transport nothing happens; otherwise one SSRC is used up that was not in use and that no producer registered in any room streams with, and, when the engine makes the producer, it is saved, announced to ws twice and `updateConsumers` goes to the others |
| Actions.Server.PublishProducer | actions.js:116-129 | the producer is saved in the room and on ws's record, then `/producerCreated`, `/produceInfo` and the broadcast to everyone but ws are sent, in that order |
| Actions.Server.HandleConnectTransport | actions.js:135-158 | a connected transport gets "already connected"; otherwise it is connected and the reply is sent only if connecting did not throw; no room or no transport does nothing |
| Actions.Server.HandleRemoveRoom | actions.js:161-171 | the others are told `removeRoom` and the room is unregistered; an unknown room changes nothing |
| Actions.Server.HandleCheckRoom | actions.js:173-191 | an unknown room gets `/removedRoom`; otherwise the status says whether the asker is the room's sleeping producer |
| Actions.Server.HandleCreateConsumer | actions.js:193-252 | unknown room or user gets an error; otherwise the user's record and the replies follow the consume plan |
| Actions.Server.ConsumeEach | actions.js:212-248 | the loop leaves the user's record and the replies exactly as the consume plan says |
| Actions.Server.ConsumeOne | actions.js:213-247 | a skipped id changes nothing; a failing consume marks the id listened and stops; a success also adds the consumer and replies |
| Actions.Server.HandleJoinRoom | actions.js:255-282 | enrols ws as a consumer named after the time, records its room, and sends `/joinedRoom` when the transport was made; an unknown room does nothing |
| Actions.Server.MuteMicro | actions.js:284-306 | pauses or resumes every audio producer and tells every member; an unknown room gets an error |
| Actions.Server.HandleRemoveProducer | actions.js:308-318 | closes the producer with that id if the room has it, and nothing else; an unknown room gets an error |
| Actions.Server.HandleSendMessage | actions.js:320-331 | a member's message is added to the chat under their name and sent to every member; a stranger changes nothing |
| Actions.Server.HandleLeaveUser | actions.js:333-352 | a leaving producer puts the room to sleep, tells the others and arms the timer; anyone else is removed with their media; a connection without a room changes nothing |
| Actions.Server.Leave | actions.js:337-346 | the two cases of `handleLeaveUser` once the room is known |
| Actions.Server.HandleRestartSfu | actions.js:354-367 | the timer is cancelled, the room is active again and the others are told; an unknown room gets `/removedRoom` |
| Actions.Server.HandleRecconect | actions.js:369-386 | re-enrols ws as producer, sends the track types with the response, then every user's consumers are emptied; an unknown room gets `/removedRoom` |
| Actions.Server.HandleTimeoutRemoveRoom | actions.js:388-400 | every member is told `removeRoom`, all the room's media, router and worker are closed, the room's lists, handles, producer id, leave time and timer are cleared while its chat and activity are kept, and it is unregistered; an unknown id changes nothing |
| Actions.Server.FireTimer | room.js:252-258 | the callback is no longer pending; while the room sleeps it removes and destroys the room registered under its id, which ends with empty lists, no handles, no producer id, leave time 0 and no timer, its chat and activity kept; otherwise it changes nothing, and the registered room keeps its users, media, handles, chat, activity and producer id |
| Actions.PauseAll | actions.js:290-298 | the loop issues exactly the pause or resume calls for the audio ids |
| Actions.ConsumeStops | actions.js:226-230 | the first consume that throws splits the candidates into the ones done, that one, and the rest |
| Actions.PlanStopsAt | actions.js:226-230 | a consume that throws at position k ends the plan with the ids done and that id attempted |
| Actions.PlanCompletes | actions.js:212-248 | when every candidate's consume succeeds, the plan creates them all |
| Actions.ListenStep | actions.js:224 | marking one more id listened extends the listen list by that id |
| Actions.ConsumeStep | actions.js:224-238 | one more successful consume adds the id, its consumer and one reply |
| Actions.ConsumeAdvance | actions.js:224-238 | a successful consume moves the user record and the replies one step along the plan |
| Actions.StopAdvance | actions.js:224-230 | a consume that throws leaves the user record as the completed plan says |
| Actions.AudioIdIsProducer | actions.js:288-291 | every audio id is found as a producer with that id, so `producer.pause()` never hits null |

## Left out

- `index.js` is not part of this model. It holds the WebSocket server, JSON
  parsing and dispatch through `routes`. Dispatch is modeled only as the
  `Routes` table.
- mediasoup itself is not modeled: workers, routers, transports, RTP
  capabilities, ICE/DTLS parameters and codec options. Its results are
  parameters, and `router.canConsume` is the `consumable` set.
- Timers are not modeled as time. The 15000 ms `TIMEOUT_MAX` and
  `setTimeout`/`clearTimeout` become the `producerTimeout` and `timerPending`
  flags. `Server.FireTimer` is the callback firing, at a moment the caller
  chooses.
- `Date` and `Math.random` are parameters.
  - The time is `now`.
  - The SSRC draws are `draws`. They must hold an unused value, standing in for
    the random loop eventually hitting one.
  - SSRCs are only drawn below `0xffffffff`, as `Math.floor(Math.random() * 0xffffffff)` does.
- `uuidv4` is a parameter (`roomId`) of `HandleCreateRoom`.
- Interleavings are not modeled. Each `async` handler runs to completion
  without another handler between its awaits.
- JSON encoding is not modeled, and neither are `console` output and the
  fields of messages that only the engine provides.
- Some methods in `room.js` are never called from `actions.js`, so the model
  does not include them:
  - `createProducer`, `clearProducers`, `getTransportBySocket`,
    `getAllTransports` and `setProducerLeaveTime`;
  - the first `removeUser` at `room.js:74-78`, which the later
    definition at `room.js:211-245` overrides.
- The producer `observer` handlers only log, so they are not modeled.
- The consumer `close` observer at `actions.js:232-234` is not modeled, so the
  outbox lacks the `/offTrack` messages it sends. The observer fires whenever
  a consumer closes, and the core itself closes consumers, so these sends are
  missing:
  - from `removeUser` (`room.js:211-245`, via `handleLeaveUser`): one to the
    leaving connection for each of its consumers, and one to every subscriber
    of each of its producers, because mediasoup closes a producer's consumers
    with it;
  - from `destroy` (`room.js:268-328`, via `handleTimeoutRemoveRoom`): one for
    every consumer in the room;
  - from `handleRemoveProducer` (`actions.js:314`): one to every subscriber of
    that producer.
- User records are values, and replacing a record stands for mutating the JS
  object. A `getUser` result a caller keeps does not see later updates. The
  source never reads a stale one.
- SSRCs are never released: `usedSSRCs` only grows, as in the source.
- A transport's `connected` flag is created false and nothing in the core
  sets it, as in the source, where `handleConnectTransport` reads
  `transport.connected` but nothing in the repository writes it. The "already
  connected" branch of `HandleConnectTransport` is modeled but never taken.
- An explicit `appointment: null` in a `create-producer` message is stored as
  null by the source, since the parameter default at `actions.js:84` replaces
  only `undefined`. The model has no null appointment and stores "audio" for
  both.
- User ids are strings. The source compares `room.producerUserId == userId`
  with loose equality at `actions.js:179`, so a number and its decimal string
  match there; the model compares strings only.
- Actions.Server.HandleRemoveProducer: closes the producer but leaves it listed
  in `room.producers` and in the owner's record, as the source does. A missing
  producer is a `TypeError` in the source that the `catch` swallows; the
  model does nothing in that case.
- Actions.Server.HandleSendMessage: when the sender has no record, the source
  throws on `user.name` inside the `try`, so nothing happens; the model does
  nothing for that case.
- Actions.Server.HandleLeaveUser: `handleLeaveUser` is exported but has no
  entry in `routes`, and `index.js` does not call it on close. The model keeps
  it as a method and proves that "leave" is not routed.
- Actions.Server.HandleCreateRoom: a new uuid is never already registered in
  practice. The error branch is modeled for an id the caller passes in.
- The route and handler `recconect` keep the source's spelling.
- `rooms` is a plain object literal (`actions.js:4-6`), so an id naming a
  member of `Object.prototype` ("toString", "constructor", "__proto__" and
  the like) finds a truthy value that is not a room. The model's registry is
  a map and treats such an id as absent. This changes the outcome of these
  handlers:
  - `handleCheckRoom`: the source answers `/roomStatus` with `isExist: true`
    and `recconect: false`, but the model answers `/removedRoom`;
  - `handleCreateConsumer`, `muteMicro`, `handleRemoveProducer`,
    `handleSendMessage`, `handleRestartSFU` and `handleRecconect`: the source
    throws a TypeError that its `catch` swallows, so nothing is sent (in
    `muteMicro` the `catch` itself then throws on the unbound `err`,
    `actions.js:303-304`), but the model sends its "Room not found" or
    `/removedRoom` reply.
