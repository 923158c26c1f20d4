/**
 * The message handlers of the signalling server (actions.js): the room
 * registry, the SSRC allocator, the per-route handlers and the route table.
 *
 * Engine results (new router, transport, producer and consumer ids, whether
 * the router can consume a producer, whether a transport connects), the
 * clock and the random source are parameters of the handlers; `None` stands
 * for an engine call that throws.
 */
module Actions {
  import opened Wrappers
  import opened Seqs
  import opened Media
  import opened Protocol
  import opened Rooms

  // ---------------------------------------------------------------------
  // SSRC allocation
  // ---------------------------------------------------------------------

  /** Index of the first draw of the random source that is not yet in use. */
  function FirstFree(draws: seq<Ssrc>, used: set<Ssrc>): (k: nat)
    requires exists i :: 0 <= i < |draws| && draws[i] !in used
    ensures k < |draws| && draws[k] !in used
    ensures forall j :: 0 <= j < k ==> draws[j] in used
  {
    if draws[0] !in used then 0
    else
      FreeInTail(draws, used);
      1 + FirstFree(draws[1..], used)
  }

  lemma FreeInTail(draws: seq<Ssrc>, used: set<Ssrc>)
    requires exists i :: 0 <= i < |draws| && draws[i] !in used
    requires draws[0] in used
    ensures exists i :: 0 <= i < |draws[1..]| && draws[1..][i] !in used
  {
    var i :| 0 <= i < |draws| && draws[i] !in used;
    assert draws[1..][i - 1] == draws[i];
  }

  // ---------------------------------------------------------------------
  // Decimal rendering of the clock, for the name `consumer - <ms>`
  // ---------------------------------------------------------------------

  function Digit(d: nat): char
    requires d < 10
  {
    "0123456789"[d]
  }

  predicate IsDigits(s: string) {
    forall i :: 0 <= i < |s| ==> '0' <= s[i] <= '9'
  }

  /** A number as JavaScript's template literal prints a non-negative integer. */
  function Decimal(n: nat): (s: string)
    ensures |s| >= 1 && IsDigits(s)
    ensures |s| == 1 || s[0] != '0'
  {
    if n < 10 then [Digit(n)] else Decimal(n / 10) + [Digit(n % 10)]
  }

  /** The number a string of digits denotes. */
  function DigitsValue(s: string): nat
    requires IsDigits(s)
  {
    if s == [] then 0 else DigitsValue(s[..|s| - 1]) * 10 + (s[|s| - 1] as int - '0' as int)
  }

  /** `Decimal` loses nothing: reading the digits back gives the number. */
  lemma {:induction false} DecimalValue(n: nat)
    ensures DigitsValue(Decimal(n)) == n
  {
    if n >= 10 {
      DecimalValue(n / 10);
      var s := Decimal(n);
      assert s[..|s| - 1] == Decimal(n / 10);
    }
  }

  // ---------------------------------------------------------------------
  // Consumer planning (handleCreateConsumer)
  // ---------------------------------------------------------------------

  /** `room.producers.map(data => data.producer.id)`. */
  function ProducerIds(entries: seq<ProducerEntry>): (ids: seq<Id>)
    ensures |ids| == |entries|
    ensures forall k :: 0 <= k < |entries| ==> ids[k] == entries[k].producer.id
  {
    if entries == [] then []
    else ProducerIds(entries[..|entries| - 1]) + [entries[|entries| - 1].producer.id]
  }

  function NotListened(listen: seq<Id>): Id -> bool { (id: Id) => id !in listen }

  /** The two checks before a consume: the producer is found and the router can consume it. */
  function Eligible(entries: seq<ProducerEntry>, consumable: set<Id>): Id -> bool {
    (id: Id) => FindProducerById(entries, id).Some? && id in consumable
  }

  /** `consumeProducerList`: the producer ids the user does not listen to yet. */
  function ConsumeList(entries: seq<ProducerEntry>, listen: seq<Id>): seq<Id> {
    Filter(ProducerIds(entries), NotListened(listen))
  }

  /** The ids the loop gets as far as trying: unlistened, found and consumable. */
  function Candidates(entries: seq<ProducerEntry>, listen: seq<Id>, consumable: set<Id>): seq<Id> {
    Filter(ConsumeList(entries, listen), Eligible(entries, consumable))
  }

  /** The ids for which `transport.consume` succeeds. */
  function Accepted(hasTransport: bool, consumerIds: map<Id, Id>): set<Id> {
    if hasTransport then consumerIds.Keys else {}
  }

  /** How many leading candidates are consumed before the first consume that throws. */
  function OkPrefix(cands: seq<Id>, ok: set<Id>): (n: nat)
    ensures n <= |cands|
    ensures forall j :: 0 <= j < n ==> cands[j] in ok
    ensures n < |cands| ==> cands[n] !in ok
  {
    if cands == [] || cands[0] !in ok then 0 else 1 + OkPrefix(cands[1..], ok)
  }

  lemma {:induction false} OkPrefixAll(cands: seq<Id>, ok: set<Id>)
    requires forall j :: 0 <= j < |cands| ==> cands[j] in ok
    ensures OkPrefix(cands, ok) == |cands|
  {
    if cands != [] {
      OkPrefixAll(cands[1..], ok);
    }
  }

  lemma {:induction false} OkPrefixStop(pre: seq<Id>, x: Id, rest: seq<Id>, ok: set<Id>)
    requires forall j :: 0 <= j < |pre| ==> pre[j] in ok
    requires x !in ok
    ensures OkPrefix(pre + [x] + rest, ok) == |pre|
  {
    if pre != [] {
      assert (pre + [x] + rest)[1..] == pre[1..] + [x] + rest;
      OkPrefixStop(pre[1..], x, rest, ok);
    }
  }

  /**
   * What one `handleCreateConsumer` call does: `attempted` are the ids pushed
   * onto the user's listenProducers, `created` those consumed. The push
   * happens before `transport.consume`, so a consume that throws (no
   * transport, or the engine refuses) leaves its id in `attempted` and ends
   * the handler.
   */
  datatype ConsumePlan = ConsumePlan(attempted: seq<Id>, created: seq<Id>)

  function PlanConsume(entries: seq<ProducerEntry>, listen: seq<Id>, hasTransport: bool,
                       consumable: set<Id>, consumerIds: map<Id, Id>): (plan: ConsumePlan)
    ensures forall i :: 0 <= i < |plan.created| ==> hasTransport && plan.created[i] in consumerIds
  {
    var cands := Candidates(entries, listen, consumable);
    var n := OkPrefix(cands, Accepted(hasTransport, consumerIds));
    ConsumePlan(if n < |cands| then cands[..n + 1] else cands, cands[..n])
  }

  /**
   * The consumed ids are the attempted ones but at most the last, and a
   * last one left over is one whose consume throws.
   */
  lemma PlanShape(entries: seq<ProducerEntry>, listen: seq<Id>, hasTransport: bool,
                  consumable: set<Id>, consumerIds: map<Id, Id>)
    ensures var plan := PlanConsume(entries, listen, hasTransport, consumable, consumerIds);
            && plan.created <= plan.attempted
            && |plan.attempted| <= |plan.created| + 1
            && (|plan.created| < |plan.attempted| ==>
                  !hasTransport || plan.attempted[|plan.created|] !in consumerIds)
  {
  }

  /** Only producers of the room that the user does not listen to and the router can consume are attempted. */
  lemma PlanQualifies(entries: seq<ProducerEntry>, listen: seq<Id>, hasTransport: bool,
                      consumable: set<Id>, consumerIds: map<Id, Id>, i: nat)
    requires i < |PlanConsume(entries, listen, hasTransport, consumable, consumerIds).attempted|
    ensures var id := PlanConsume(entries, listen, hasTransport, consumable, consumerIds).attempted[i];
            id !in listen && id in consumable && id in ProducerIds(entries)
  {
    var cands := Candidates(entries, listen, consumable);
    var plan := PlanConsume(entries, listen, hasTransport, consumable, consumerIds);
    assert plan.attempted[i] == cands[i];
    CandidatesQualify(entries, listen, consumable);
  }

  /** Each candidate is a producer of the room, not yet listened to, that the router can consume. */
  lemma CandidatesQualify(entries: seq<ProducerEntry>, listen: seq<Id>, consumable: set<Id>)
    ensures forall i :: 0 <= i < |Candidates(entries, listen, consumable)| ==>
              && Candidates(entries, listen, consumable)[i] !in listen
              && Candidates(entries, listen, consumable)[i] in consumable
              && Candidates(entries, listen, consumable)[i] in ProducerIds(entries)
  {
    var list := ConsumeList(entries, listen);
    var cands := Filter(list, Eligible(entries, consumable));
    FilterSpec(list, Eligible(entries, consumable));
    FilterSpec(ProducerIds(entries), NotListened(listen));
    forall i | 0 <= i < |cands|
      ensures cands[i] !in listen && cands[i] in consumable && cands[i] in ProducerIds(entries)
    {
      assert cands[i] in list && Eligible(entries, consumable)(cands[i]);
      assert NotListened(listen)(cands[i]);
    }
  }

  /** Every consume succeeds: exactly the unlistened, consumable producers are consumed. */
  lemma ConsumeAllEligible(entries: seq<ProducerEntry>, listen: seq<Id>, consumable: set<Id>,
                           consumerIds: map<Id, Id>, id: Id)
    requires forall i :: 0 <= i < |entries| && entries[i].producer.id in consumable ==>
               entries[i].producer.id in consumerIds
    ensures var plan := PlanConsume(entries, listen, true, consumable, consumerIds);
            && plan.attempted == plan.created
            && (id in plan.created <==> id in ProducerIds(entries) && id !in listen && id in consumable)
  {
    var cands := Candidates(entries, listen, consumable);
    PlanConsumesAll(entries, listen, consumable, consumerIds);
    if id in cands {
      CandidatesQualify(entries, listen, consumable);
    }
    if id in ProducerIds(entries) && id !in listen && id in consumable {
      EligibleIsCandidate(entries, listen, consumable, id);
    }
  }

  /** When the engine consumes every consumable producer, the plan consumes every candidate. */
  lemma PlanConsumesAll(entries: seq<ProducerEntry>, listen: seq<Id>, consumable: set<Id>, consumerIds: map<Id, Id>)
    requires forall i :: 0 <= i < |entries| && entries[i].producer.id in consumable ==>
               entries[i].producer.id in consumerIds
    ensures var cands := Candidates(entries, listen, consumable);
            PlanConsume(entries, listen, true, consumable, consumerIds) == ConsumePlan(cands, cands)
  {
    var cands := Candidates(entries, listen, consumable);
    CandidatesConsumed(entries, listen, consumable, consumerIds);
    OkPrefixAll(cands, Accepted(true, consumerIds));
    assert cands[..|cands|] == cands;
  }

  /** When the engine consumes every consumable producer, every candidate is consumed. */
  lemma CandidatesConsumed(entries: seq<ProducerEntry>, listen: seq<Id>, consumable: set<Id>, consumerIds: map<Id, Id>)
    requires forall i :: 0 <= i < |entries| && entries[i].producer.id in consumable ==>
               entries[i].producer.id in consumerIds
    ensures forall j :: 0 <= j < |Candidates(entries, listen, consumable)| ==>
              Candidates(entries, listen, consumable)[j] in Accepted(true, consumerIds)
  {
    var cands := Candidates(entries, listen, consumable);
    FilterSpec(ConsumeList(entries, listen), Eligible(entries, consumable));
    forall j | 0 <= j < |cands| ensures cands[j] in consumerIds {
      assert Eligible(entries, consumable)(cands[j]);
      FindProducerByIdSpec(entries, cands[j]);
      var k :| 0 <= k < |entries| && entries[k].producer.id == cands[j];
    }
  }

  /** A producer of the room, not listened to and consumable, is a candidate. */
  lemma EligibleIsCandidate(entries: seq<ProducerEntry>, listen: seq<Id>, consumable: set<Id>, id: Id)
    requires id in ProducerIds(entries) && id !in listen && id in consumable
    ensures id in Candidates(entries, listen, consumable)
  {
    var ids := ProducerIds(entries);
    var k :| 0 <= k < |ids| && ids[k] == id;
    FilterKeeps(ids, NotListened(listen), k);
    var list := ConsumeList(entries, listen);
    var j :| 0 <= j < |list| && list[j] == id;
    assert entries[k].producer.id == id;
    FindProducerByIdSpec(entries, id);
    assert Eligible(entries, consumable)(list[j]);
    FilterKeeps(list, Eligible(entries, consumable), j);
  }

  /** After a call in which every consume succeeded, an immediate repeat consumes nothing. */
  lemma RepeatConsumeIsEmpty(entries: seq<ProducerEntry>, listen: seq<Id>, consumable: set<Id>,
                             consumerIds: map<Id, Id>, hasTransport2: bool, consumerIds2: map<Id, Id>)
    requires forall i :: 0 <= i < |entries| && entries[i].producer.id in consumable ==>
               entries[i].producer.id in consumerIds
    ensures var first := PlanConsume(entries, listen, true, consumable, consumerIds);
            PlanConsume(entries, listen + first.attempted, hasTransport2, consumable, consumerIds2).attempted == []
  {
    var first := PlanConsume(entries, listen, true, consumable, consumerIds);
    var listen2 := listen + first.attempted;
    var cands := Candidates(entries, listen2, consumable);
    if cands != [] {
      var id := cands[0];
      FilterSpec(ConsumeList(entries, listen2), Eligible(entries, consumable));
      FilterSpec(ProducerIds(entries), NotListened(listen2));
      assert id in ConsumeList(entries, listen2);
      ConsumeAllEligible(entries, listen, consumable, consumerIds, id);
      assert false;
    }
  }

  /** An id attempted once is never attempted again by a later call on the same user. */
  lemma NeverReattempted(entries: seq<ProducerEntry>, listen: seq<Id>, hasTransport: bool,
                         consumable: set<Id>, consumerIds: map<Id, Id>,
                         entries2: seq<ProducerEntry>, hasTransport2: bool,
                         consumable2: set<Id>, consumerIds2: map<Id, Id>, id: Id)
    requires id in PlanConsume(entries, listen, hasTransport, consumable, consumerIds).attempted
    ensures var listen2 := listen + PlanConsume(entries, listen, hasTransport, consumable, consumerIds).attempted;
            id !in PlanConsume(entries2, listen2, hasTransport2, consumable2, consumerIds2).attempted
  {
    var listen2 := listen + PlanConsume(entries, listen, hasTransport, consumable, consumerIds).attempted;
    var second := PlanConsume(entries2, listen2, hasTransport2, consumable2, consumerIds2);
    forall j | 0 <= j < |second.attempted| ensures second.attempted[j] != id {
      PlanQualifies(entries2, listen2, hasTransport2, consumable2, consumerIds2, j);
    }
  }

  function KindOf(entries: seq<ProducerEntry>, pid: Id): string {
    match FindProducerById(entries, pid) case Some(p) => p.kind case None => ""
  }

  function AppointmentOf(entries: seq<ProducerEntry>, pid: Id): string {
    match FindProducerById(entries, pid) case Some(p) => p.appointment case None => ""
  }

  /** The consumer the engine creates for producer `pid`; its kind is the producer's. */
  function ConsumerOf(entries: seq<ProducerEntry>, consumerIds: map<Id, Id>, pid: Id): Consumer
    requires pid in consumerIds
  {
    Consumer(consumerIds[pid], pid, KindOf(entries, pid))
  }

  /** The `/createConsumer` reply for producer `pid`. */
  function ConsumerNotice(ws: Socket, entries: seq<ProducerEntry>, consumerIds: map<Id, Id>, pid: Id): Envelope
    requires pid in consumerIds
  {
    Reply("/createConsumer", ws, ConsumerCreated(consumerIds[pid], pid, KindOf(entries, pid), AppointmentOf(entries, pid)))
  }

  predicate AllIn(ids: seq<Id>, consumerIds: map<Id, Id>) {
    forall i :: 0 <= i < |ids| ==> ids[i] in consumerIds
  }

  function NewConsumers(entries: seq<ProducerEntry>, consumerIds: map<Id, Id>, ids: seq<Id>): (cs: seq<Consumer>)
    requires AllIn(ids, consumerIds)
    ensures |cs| == |ids|
    ensures forall i :: 0 <= i < |ids| ==> cs[i] == ConsumerOf(entries, consumerIds, ids[i])
  {
    if ids == [] then []
    else NewConsumers(entries, consumerIds, ids[..|ids| - 1]) + [ConsumerOf(entries, consumerIds, ids[|ids| - 1])]
  }

  function ConsumerNotices(ws: Socket, entries: seq<ProducerEntry>, consumerIds: map<Id, Id>, ids: seq<Id>): (r: seq<Envelope>)
    requires AllIn(ids, consumerIds)
    ensures |r| == |ids|
    ensures forall i :: 0 <= i < |ids| ==> r[i] == ConsumerNotice(ws, entries, consumerIds, ids[i])
  {
    if ids == [] then []
    else ConsumerNotices(ws, entries, consumerIds, ids[..|ids| - 1]) + [ConsumerNotice(ws, entries, consumerIds, ids[|ids| - 1])]
  }

  /** The user record once a consume plan has run. */
  function AfterConsume(u: User, entries: seq<ProducerEntry>, consumerIds: map<Id, Id>, plan: ConsumePlan): User
    requires AllIn(plan.created, consumerIds)
  {
    u.(listenProducers := u.listenProducers + plan.attempted,
       consumers := u.consumers + NewConsumers(entries, consumerIds, plan.created))
  }

  // ---------------------------------------------------------------------
  // Muting (muteMicro)
  // ---------------------------------------------------------------------

  function IsAudio(): ProducerEntry -> bool { (e: ProducerEntry) => e.producer.kind == "audio" }

  /** `producersId`: the ids of the room's audio producers, in order. */
  function AudioIds(entries: seq<ProducerEntry>): seq<Id> {
    ProducerIds(Filter(entries, IsAudio()))
  }

  function MuteCall(id: Id, mute: bool): EngineCall {
    if mute then PauseProducer(id) else ResumeProducer(id)
  }

  function MuteCalls(ids: seq<Id>, mute: bool): (calls: seq<EngineCall>)
    ensures |calls| == |ids|
    ensures forall i :: 0 <= i < |ids| ==> calls[i] == MuteCall(ids[i], mute)
  {
    if ids == [] then [] else MuteCalls(ids[..|ids| - 1], mute) + [MuteCall(ids[|ids| - 1], mute)]
  }

  /** Muting reaches every audio producer and nothing else. */
  lemma MuteReachesAudioOnly(entries: seq<ProducerEntry>, mute: bool, id: Id)
    ensures MuteCall(id, mute) in MuteCalls(AudioIds(entries), mute) <==>
            exists i :: 0 <= i < |entries| && entries[i].producer.id == id && entries[i].producer.kind == "audio"
  {
    var audio := Filter(entries, IsAudio());
    FilterSpec(entries, IsAudio());
    var calls := MuteCalls(AudioIds(entries), mute);
    if MuteCall(id, mute) in calls {
      var k :| 0 <= k < |calls| && calls[k] == MuteCall(id, mute);
      assert audio[k] in entries && IsAudio()(audio[k]);
      var i :| 0 <= i < |entries| && entries[i] == audio[k];
    }
    if exists i :: 0 <= i < |entries| && entries[i].producer.id == id && entries[i].producer.kind == "audio" {
      var i :| 0 <= i < |entries| && entries[i].producer.id == id && entries[i].producer.kind == "audio";
      assert IsAudio()(entries[i]);
      FilterKeeps(entries, IsAudio(), i);
      var k :| 0 <= k < |audio| && audio[k] == entries[i];
      assert calls[k] == MuteCall(id, mute);
    }
  }

  // ---------------------------------------------------------------------
  // Reconnection (handleRecconect)
  // ---------------------------------------------------------------------

  function NotAudioName(): string -> bool { (a: string) => a != "audio" }

  function Appointments(entries: seq<ProducerEntry>): (r: seq<string>)
    ensures |r| == |entries|
    ensures forall k :: 0 <= k < |entries| ==> r[k] == entries[k].producer.appointment
  {
    if entries == [] then []
    else Appointments(entries[..|entries| - 1]) + [entries[|entries| - 1].producer.appointment]
  }

  /** `tracksType`: the distinct non-audio appointments, in order of first appearance. */
  function TracksType(entries: seq<ProducerEntry>): seq<string> {
    Distinct(Filter(Appointments(entries), NotAudioName()))
  }

  /** A track type is listed once and exactly when some producer has that non-audio appointment. */
  lemma TracksTypeListsAppointments(entries: seq<ProducerEntry>, t: string)
    ensures NoDuplicates(TracksType(entries))
    ensures t in TracksType(entries) <==>
            t != "audio" && exists i :: 0 <= i < |entries| && entries[i].producer.appointment == t
  {
    var apps := Appointments(entries);
    var kept := Filter(apps, NotAudioName());
    FilterSpec(apps, NotAudioName());
    if t in TracksType(entries) {
      assert t in kept;
      assert t in apps;
      var i :| 0 <= i < |apps| && apps[i] == t;
      assert entries[i].producer.appointment == t;
    }
    if t != "audio" && exists i :: 0 <= i < |entries| && entries[i].producer.appointment == t {
      var i :| 0 <= i < |entries| && entries[i].producer.appointment == t;
      assert apps[i] == t && NotAudioName()(apps[i]);
      FilterKeeps(apps, NotAudioName(), i);
      assert t in kept;
    }
  }

  /** The reconnect handler empties every user's consumer list and changes nothing else. */
  function ClearConsumers(users: seq<User>): (r: seq<User>)
    ensures |r| == |users|
  {
    if users == [] then []
    else ClearConsumers(users[..|users| - 1]) + [users[|users| - 1].(consumers := [])]
  }

  /** Each record loses its consumers and nothing else. */
  lemma {:induction false} ClearConsumersSpec(users: seq<User>)
    ensures forall k :: 0 <= k < |users| ==> ClearConsumers(users)[k] == users[k].(consumers := [])
  {
    if users != [] {
      ClearConsumersSpec(users[..|users| - 1]);
    }
  }

  // ---------------------------------------------------------------------
  // Enrolment (generateUserResponse and handleJoinRoom)
  // ---------------------------------------------------------------------

  /** The transport `createTransport` adds, if the engine made one. */
  function NewTransports(ws: Socket, transportId: Option<Id>): seq<Transport> {
    if transportId.Some? then [Transport(transportId.value, ws, false)] else []
  }

  function Response(transportId: Option<Id>, routerId: Id): Option<UserResponse> {
    if transportId.Some? then Some(UserResponse(transportId.value, routerId)) else None
  }

  /** The record of `ws` after `addUser`, `setName`, `setInfo` and (if it succeeds) `createTransport`. */
  function EnrolledRecord(users: seq<User>, ws: Socket, name: string, role: string,
                          userId: Option<UserId>, transportId: Option<Id>): User
  {
    var u := match Find(users, OwnedBy(ws)) case Some(i) => users[i] case None => NewUser(ws);
    var named := u.(name := name, role := Some(role), userId := userId);
    if transportId.Some? then named.(transport := Some(Transport(transportId.value, ws, false))) else named
  }

  function Enrolled(users: seq<User>, ws: Socket, name: string, role: string,
                    userId: Option<UserId>, transportId: Option<Id>): seq<User>
  {
    Replace(Admit(users, ws), EnrolledRecord(users, ws, name, role, userId, transportId))
  }

  /**
   * Enrolment leaves exactly one record for `ws`, carrying the new name, role
   * and user id and keeping its media; every other record is untouched.
   */
  lemma EnrolledSpec(users: seq<User>, ws: Socket, name: string, role: string,
                     userId: Option<UserId>, transportId: Option<Id>, i: nat)
    requires UniqueSockets(users)
    ensures var r := Enrolled(users, ws, name, role, userId, transportId);
            && UniqueSockets(r)
            && |r| == |users| + (if Find(users, OwnedBy(ws)).Some? then 0 else 1)
            && (i < |users| && users[i].socket != ws ==> r[i] == users[i])
            && (exists k :: 0 <= k < |r| && r[k].socket == ws &&
                  r[k] == EnrolledRecord(users, ws, name, role, userId, transportId))
    ensures var u := EnrolledRecord(users, ws, name, role, userId, transportId);
            && u.socket == ws && u.name == name && u.role == Some(role) && u.userId == userId
            && (transportId.Some? ==> u.transport == Some(Transport(transportId.value, ws, false)))
            && (Find(users, OwnedBy(ws)).Some? ==>
                  var old_ := users[Find(users, OwnedBy(ws)).value];
                  u.producers == old_.producers && u.consumers == old_.consumers &&
                  u.listenProducers == old_.listenProducers)
  {
    var a := Admit(users, ws);
    var u := EnrolledRecord(users, ws, name, role, userId, transportId);
    AdmitKeepsUnique(users, ws);
    AdmitFind(users, ws);
    ReplaceKeepsUnique(a, u);
    var k := Find(a, OwnedBy(ws)).value;
    if i < |users| && users[i].socket != ws {
      assert a[i] == users[i];
    }
    assert Replace(a, u)[k] == u;
  }

  // ---------------------------------------------------------------------
  // The route table
  // ---------------------------------------------------------------------

  datatype Handler =
    | OnCreateRoom | OnCreateProducer | OnConnectTransport | OnRemoveRoom
    | OnCheckRoom | OnJoinRoom | OnCreateConsumer | OnMuteMicro
    | OnRemoveProducer | OnSendMessage | OnRecconect | OnRestartSfu

  /** `routes`: the message types a client may send; leaving is not among them. */
  const Routes: map<string, Handler> := map[
    "create-room" := OnCreateRoom,
    "create-producer" := OnCreateProducer,
    "connect-transport" := OnConnectTransport,
    "remove-room" := OnRemoveRoom,
    "check-room" := OnCheckRoom,
    "join-room" := OnJoinRoom,
    "create-consumer" := OnCreateConsumer,
    "mute-micro" := OnMuteMicro,
    "remove-producer" := OnRemoveProducer,
    "send-message" := OnSendMessage,
    "recconect" := OnRecconect,
    "restart-sfu" := OnRestartSfu
  ]

  function RouteName(h: Handler): string {
    match h
    case OnCreateRoom => "create-room"
    case OnCreateProducer => "create-producer"
    case OnConnectTransport => "connect-transport"
    case OnRemoveRoom => "remove-room"
    case OnCheckRoom => "check-room"
    case OnJoinRoom => "join-room"
    case OnCreateConsumer => "create-consumer"
    case OnMuteMicro => "mute-micro"
    case OnRemoveProducer => "remove-producer"
    case OnSendMessage => "send-message"
    case OnRecconect => "recconect"
    case OnRestartSfu => "restart-sfu"
  }

  /** Every handler has a route, and that route names it. */
  lemma EveryHandlerRouted(h: Handler)
    ensures RouteName(h) in Routes && Routes[RouteName(h)] == h
  {
  }

  /** Every route names its handler, and leaving has no route. */
  lemma RoutesAreOneToOne(name: string)
    ensures name in Routes ==> RouteName(Routes[name]) == name
    ensures "leave" !in Routes && "leave-user" !in Routes
  {
  }

  // ---------------------------------------------------------------------
  // The server: registry, SSRC set, connection state and the message log
  // ---------------------------------------------------------------------

  /**
   * `addUser`, `setName`, `setInfo` and `createTransport` on `ws`, as both
   * enrolment paths do them; `transportId` is `None` when `createTransport`
   * throws, and no transport is made.
   */
  method Enrol(room: Room, ws: Socket, name: string, role: string, userId: Option<UserId>, transportId: Option<Id>)
    returns (transport: Option<Transport>)
    requires room.Valid()
    modifies room`users, room`transports
    ensures room.Valid()
    ensures room.users == Enrolled(old(room.users), ws, name, role, userId, transportId)
    ensures room.transports == old(room.transports) + NewTransports(ws, transportId)
    ensures transport == if transportId.Some? then Some(Transport(transportId.value, ws, false)) else None
  {
    ghost var admitted := Admit(room.users, ws);
    ghost var base := match Find(room.users, OwnedBy(ws)) case Some(i) => room.users[i] case None => NewUser(ws);
    ghost var named := base.(name := name);
    ghost var info := named.(role := Some(role), userId := userId);
    room.AddUser(ws);
    assert UserOf(room.users, ws) == Some(base);
    room.SetName(ws, name);
    assert room.users == Replace(admitted, named);
    room.SetInfo(ws, role, userId);
    ReplaceTwice(admitted, named, info);
    assert room.users == Replace(admitted, info);
    transport := None;
    if transportId.Some? {
      var t := room.CreateTransport(ws, transportId.value);
      ReplaceTwice(admitted, info, info.(transport := Some(t)));
      transport := Some(t);
    }
  }

  /** The loop of `handleRecconect` that sets every user's `consumers` to `[]`. */
  method ClearAllConsumers(room: Room)
    requires room.Valid()
    modifies room`users
    ensures room.Valid()
    ensures room.users == ClearConsumers(old(room.users))
  {
    ghost var before := room.users;
    for i := 0 to |room.users|
      invariant |room.users| == |before|
      invariant forall k :: 0 <= k < i ==> room.users[k] == before[k].(consumers := [])
      invariant forall k :: i <= k < |before| ==> room.users[k] == before[k]
    {
      room.users := room.users[i := room.users[i].(consumers := [])];
    }
    ClearConsumersSpec(before);
    assert room.users == ClearConsumers(before);
    assert UniqueSockets(room.users) by {
      forall a, b | 0 <= a < b < |room.users| ensures room.users[a].socket != room.users[b].socket {
        assert room.users[a].socket == before[a].socket;
      }
    }
  }

  class Server {
    /** `rooms`: room id to room. */
    var rooms: map<RoomId, Room>
    /** `usedSSRCs`: never shrinks. */
    var usedSSRCs: set<Ssrc>
    /** `ws.currentRoom` of each connection that has one. */
    var currentRoom: map<Socket, RoomId>
    /** Every `ws.send` performed, in order. */
    var outbox: seq<Envelope>
    /** Every engine call performed (closes, pauses, connects), in order. */
    var engineLog: seq<EngineCall>

    /**
     * Registered rooms are filed under their own id, have a router and are
     * consistent, and every SSRC a registered producer streams with is
     * recorded in `usedSSRCs`, so a fresh draw never repeats a live one.
     */
    ghost predicate Valid()
      reads this, rooms.Values
    {
      && (forall id | id in rooms :: rooms[id].roomId == id && rooms[id].router.Some? && rooms[id].Valid())
      && (forall id, e | id in rooms && e in rooms[id].producers :: e.producer.ssrc in usedSSRCs)
    }

    /** The room registered under `roomId`, as a frame. */
    function RoomAt(roomId: RoomId): set<Room>
      reads this
    {
      if roomId in rooms then {rooms[roomId]} else {}
    }

    /** The room a firing timer of `room` may remove: the one registered under its id, while it sleeps. */
    function TimerRoom(room: Room): set<Room>
      reads this, room
    {
      if room.active == Sleep then RoomAt(room.roomId) else {}
    }

    /** The room `handleLeaveUser` reaches: `rooms[ws.currentRoom]` for a truthy id. */
    function LeaveRoom(ws: Socket): set<Room>
      reads this
    {
      if ws in currentRoom && currentRoom[ws] != "" && currentRoom[ws] in rooms
      then {rooms[currentRoom[ws]]} else {}
    }

    constructor ()
      ensures Valid()
      ensures rooms == map[] && usedSSRCs == {} && currentRoom == map[]
      ensures outbox == [] && engineLog == []
    {
      rooms, usedSSRCs, currentRoom, outbox, engineLog := map[], {}, map[], [], [];
    }

    /** `send(route, ws, response)`: the type is the route's second `/`-part. */
    method Send(route: string, ws: Socket, payload: Payload)
      modifies this`outbox
      ensures outbox == old(outbox) + [Reply(route, ws, payload)]
    {
      outbox := outbox + [Reply(route, ws, payload)];
    }

    /**
     * `generateUniqueSSRC`: draws until a value not in `usedSSRCs` comes up,
     * then records it.
     */
    method GenerateUniqueSSRC(draws: seq<Ssrc>) returns (ssrc: Ssrc)
      requires exists i :: 0 <= i < |draws| && draws[i] !in usedSSRCs
      modifies this`usedSSRCs
      ensures ssrc !in old(usedSSRCs)
      ensures ssrc == draws[FirstFree(draws, old(usedSSRCs))]
      ensures usedSSRCs == old(usedSSRCs) + {ssrc}
    {
      var i := 0;
      ssrc := draws[0];
      while ssrc in usedSSRCs
        invariant 0 <= i < |draws| && ssrc == draws[i]
        invariant forall j :: 0 <= j < i ==> draws[j] in usedSSRCs
        decreases |draws| - i
      {
        i := i + 1;
        ssrc := draws[i];
      }
      usedSSRCs := usedSSRCs + {ssrc};
    }

    /**
     * `generateUserResponse`: enrols `ws` as the room's producer, files the
     * connection under the room and asks for a transport; `transportId` is
     * `None` when that throws, and the response is then missing.
     */
    method GenerateUserResponse(ws: Socket, room: Room, userId: Option<UserId>, transportId: Option<Id>)
      returns (res: Option<UserResponse>)
      requires room.Valid() && room.router.Some?
      modifies room`users, room`transports, room`producerUserId, this`currentRoom
      ensures room.Valid()
      ensures room.users == Enrolled(old(room.users), ws, "PRODUCER", "producer", userId, transportId)
      ensures room.transports == old(room.transports) + NewTransports(ws, transportId)
      ensures room.producerUserId == userId
      ensures currentRoom == old(currentRoom)[ws := room.roomId]
      ensures res == Response(transportId, room.router.value)
    {
      var transport := Enrol(room, ws, "PRODUCER", "producer", userId, transportId);
      currentRoom := currentRoom[ws := room.roomId];
      room.SetProducerId(userId);
      res := if transport.Some? then Some(UserResponse(transport.value.id, room.router.value)) else None;
    }

    /**
     * `handleCreateRoom`: a fresh id gets a new room, which is registered
     * only once its router exists (`engine` is the worker and router, or
     * `None` when creating them throws); its creator is then enrolled as
     * producer. A taken id is answered with an error.
     */
    method HandleCreateRoom(ws: Socket, userId: Option<UserId>, roomId: RoomId,
                            engine: Option<(Id, Id)>, transportId: Option<Id>)
      requires Valid()
      modifies this`rooms, this`currentRoom, this`outbox
      ensures Valid()
      ensures roomId in old(rooms) ==>
                && rooms == old(rooms) && currentRoom == old(currentRoom)
                && outbox == old(outbox) + [Reply("/error", ws, Text("Room already exists"))]
      ensures roomId !in old(rooms) && engine.None? ==>
                rooms == old(rooms) && currentRoom == old(currentRoom) && outbox == old(outbox)
      ensures roomId !in old(rooms) && engine.Some? ==>
                && roomId in rooms && fresh(rooms[roomId])
                && rooms == old(rooms)[roomId := rooms[roomId]]
                && var room := rooms[roomId];
                && room.users == Enrolled([], ws, "PRODUCER", "producer", userId, transportId)
                && room.transports == NewTransports(ws, transportId)
                && room.producers == [] && room.message == []
                && room.worker == Some(engine.value.0) && room.router == Some(engine.value.1)
                && room.producerUserId == userId && room.active == Live
                && !room.producerTimeout && !room.timerPending
                && currentRoom == old(currentRoom)[ws := roomId]
                && outbox == old(outbox) + [Reply("/roomCreated", ws, RoomCreated(roomId, Response(transportId, engine.value.1)))]
    {
      if roomId in rooms {
        Send("/error", ws, Text("Room already exists"));
        return;
      }
      var room := new Room(roomId);
      if engine.None? {
        return;
      }
      OpenRoom(ws, userId, room, engine.value.0, engine.value.1, transportId);
    }

    /** `handleCreateRoom` once the router exists: the room is registered, its creator enrolled and told. */
    method OpenRoom(ws: Socket, userId: Option<UserId>, room: Room, workerId: Id, routerId: Id, transportId: Option<Id>)
      requires Valid() && room.roomId !in rooms && room !in rooms.Values
      requires room.Valid() && room.users == [] && room.transports == [] && room.producers == []
      modifies this`rooms, this`currentRoom, this`outbox
      modifies room`worker, room`router, room`users, room`transports, room`producerUserId
      ensures Valid()
      ensures rooms == old(rooms)[room.roomId := room]
      ensures room.users == Enrolled([], ws, "PRODUCER", "producer", userId, transportId)
      ensures room.transports == NewTransports(ws, transportId)
      ensures room.worker == Some(workerId) && room.router == Some(routerId)
      ensures room.producerUserId == userId
      ensures currentRoom == old(currentRoom)[ws := room.roomId]
      ensures outbox == old(outbox) + [Reply("/roomCreated", ws, RoomCreated(room.roomId, Response(transportId, routerId)))]
    {
      room.InitializeRouter(workerId, routerId);
      rooms := rooms[room.roomId := room];
      var res := GenerateUserResponse(ws, room, userId, transportId);
      Send("/roomCreated", ws, RoomCreated(room.roomId, res));
    }

    /**
     * `handleCreateProducer`: needs the room and the user's transport. The
     * SSRC is drawn before the engine is asked for the producer
     * (`producerId`, `None` when producing throws), so it is used up either
     * way, and it differs from the SSRC of every producer registered in any
     * room. The appointment defaults to "audio".
     */
    method HandleCreateProducer(ws: Socket, roomId: RoomId, kind: string, appointment: Option<string>,
                                draws: seq<Ssrc>, producerId: Option<Id>)
      requires Valid()
      requires exists i :: 0 <= i < |draws| && draws[i] !in usedSSRCs
      modifies this`usedSSRCs, this`outbox, RoomAt(roomId)`users, RoomAt(roomId)`producers
      ensures Valid()
      ensures roomId !in rooms || TransportOf(old(rooms[roomId].users), ws).None? ==>
                && usedSSRCs == old(usedSSRCs) && outbox == old(outbox)
                && (roomId in rooms ==> rooms[roomId].users == old(rooms[roomId].users) &&
                                        rooms[roomId].producers == old(rooms[roomId].producers))
      ensures roomId in rooms && TransportOf(old(rooms[roomId].users), ws).Some? ==>
                var room: Room := rooms[roomId];
                var ssrc := draws[FirstFree(draws, old(usedSSRCs))];
                && ssrc !in old(usedSSRCs)
                && (forall id, e | id in old(rooms) && e in old(rooms[id].producers) :: e.producer.ssrc != ssrc)
                && usedSSRCs == old(usedSSRCs) + {ssrc}
                && (producerId.None? ==>
                      room.users == old(room.users) && room.producers == old(room.producers) && outbox == old(outbox))
                && (producerId.Some? ==>
                      var p := Producer(producerId.value, kind, appointment.GetOr("audio"), ssrc);
                      var u := UserOf(old(room.users), ws).value;
                      && room.producers == old(room.producers) + [ProducerEntry(ws, p)]
                      && room.users == Replace(old(room.users), u.(producers := u.producers + [p]))
                      && outbox == old(outbox)
                           + [Reply("/producerCreated", ws, ProducerCreated(p.id, "producer", roomId, p.appointment)),
                              Reply("/produceInfo", ws, ProduceInfo(p.id))]
                           + Fanout(room.users, Typed("updateConsumers", NoFields), Some(ws)))
    {
      if roomId !in rooms {
        return;
      }
      var room: Room := rooms[roomId];
      var transport := room.GetTransport(ws);
      if transport.None? {
        return;
      }
      var ssrc := GenerateUniqueSSRC(draws);
      if producerId.None? {
        return;
      }
      var producer := Producer(producerId.value, kind, appointment.GetOr("audio"), ssrc);
      assert UserOf(room.users, ws).Some?;
      PublishProducer(room, ws, producer);
    }

    /** The tail of `handleCreateProducer`: the producer is saved, its owner told and the others asked to update. */
    method PublishProducer(room: Room, ws: Socket, producer: Producer)
      requires room.Valid()
      modifies this`outbox, room`users, room`producers
      ensures room.Valid()
      ensures room.producers == old(room.producers) + [ProducerEntry(ws, producer)]
      ensures match UserOf(old(room.users), ws)
        case None => room.users == old(room.users)
        case Some(u) => room.users == Replace(old(room.users), u.(producers := u.producers + [producer]))
      ensures outbox == old(outbox)
                + [Reply("/producerCreated", ws, ProducerCreated(producer.id, "producer", room.roomId, producer.appointment)),
                   Reply("/produceInfo", ws, ProduceInfo(producer.id))]
                + Fanout(room.users, Typed("updateConsumers", NoFields), Some(ws))
    {
      room.SaveProducer(ws, producer);
      ghost var before := outbox;
      Send("/producerCreated", ws, ProducerCreated(producer.id, "producer", room.roomId, producer.appointment));
      Send("/produceInfo", ws, ProduceInfo(producer.id));
      assert outbox == before + [Reply("/producerCreated", ws, ProducerCreated(producer.id, "producer", room.roomId, producer.appointment)),
                                 Reply("/produceInfo", ws, ProduceInfo(producer.id))];
      var sent := room.Broadcast(Typed("updateConsumers", NoFields), Some(ws));
      outbox := outbox + sent;
    }

    /**
     * `handleConnectTransport`: a transport marked connected is answered at
     * once; otherwise it is connected (`connectOk` is false when that
     * throws) and the success reported.
     */
    method HandleConnectTransport(ws: Socket, roomId: RoomId, connectOk: bool)
      modifies this`outbox, this`engineLog
      ensures roomId !in rooms || TransportOf(rooms[roomId].users, ws).None? ==>
                outbox == old(outbox) && engineLog == old(engineLog)
      ensures roomId in rooms && TransportOf(rooms[roomId].users, ws).Some? ==>
                var t := TransportOf(rooms[roomId].users, ws).value;
                if t.connected then
                  && engineLog == old(engineLog)
                  && outbox == old(outbox) + [Reply("/transportConnected", ws, Text("Transport already connected"))]
                else
                  && engineLog == old(engineLog) + [ConnectTransport(t.id)]
                  && outbox == old(outbox)
                       + (if connectOk then [Reply("/transportConnected", ws, Text("Transport connected"))] else [])
    {
      if roomId !in rooms {
        return;
      }
      var room: Room := rooms[roomId];
      var transport := room.GetTransport(ws);
      if transport.None? {
        return;
      }
      if transport.value.connected {
        Send("/transportConnected", ws, Text("Transport already connected"));
        return;
      }
      engineLog := engineLog + [ConnectTransport(transport.value.id)];
      if connectOk {
        Send("/transportConnected", ws, Text("Transport connected"));
      }
    }

    /**
     * `handleRemoveRoom`: tells everyone but the sender and unregisters the
     * room, without destroying it or cancelling its timer.
     */
    method HandleRemoveRoom(ws: Socket, roomId: RoomId)
      requires Valid()
      modifies this`rooms, this`outbox
      ensures Valid()
      ensures roomId !in old(rooms) ==> rooms == old(rooms) && outbox == old(outbox)
      ensures roomId in old(rooms) ==>
                && rooms == old(rooms) - {roomId}
                && outbox == old(outbox) + Fanout(old(rooms)[roomId].users, Typed("removeRoom", NoFields), Some(ws))
    {
      if roomId !in rooms {
        return;
      }
      var room: Room := rooms[roomId];
      var sent := room.Broadcast(Typed("removeRoom", NoFields), Some(ws));
      outbox := outbox + sent;
      rooms := rooms - {roomId};
    }

    /**
     * `handleCheckRoom`: reports whether the room exists and whether the
     * asker is its sleeping producer, who may reconnect.
     */
    method HandleCheckRoom(ws: Socket, roomId: RoomId, userId: Option<UserId>)
      modifies this`outbox
      ensures roomId !in rooms ==> outbox == old(outbox) + [Reply("/removedRoom", ws, NoFields)]
      ensures roomId in rooms ==>
                var room: Room := rooms[roomId];
                outbox == old(outbox)
                  + [Reply("/roomStatus", ws, RoomStatus(true, room.producerUserId == userId && room.active == Sleep))]
    {
      if roomId !in rooms {
        Send("/removedRoom", ws, NoFields);
        return;
      }
      var room: Room := rooms[roomId];
      var recconect := room.producerUserId == userId && room.active == Sleep;
      Send("/roomStatus", ws, RoomStatus(true, recconect));
    }

    /**
     * `handleCreateConsumer`: consumes every producer the user does not
     * listen to yet and the router can consume, replying once per consumer;
     * `consumable` are the producers the router can consume and
     * `consumerIds` the consumer the engine makes for each producer (a
     * missing one is a consume that throws).
     */
    method HandleCreateConsumer(ws: Socket, roomId: RoomId, consumable: set<Id>, consumerIds: map<Id, Id>)
      requires Valid()
      modifies this`outbox, RoomAt(roomId)`users
      ensures Valid()
      ensures roomId !in rooms ==> outbox == old(outbox) + [Reply("/error", ws, Text("Room not found"))]
      ensures roomId in rooms && UserOf(old(rooms[roomId].users), ws).None? ==>
                && rooms[roomId].users == old(rooms[roomId].users)
                && outbox == old(outbox) + [Reply("/error", ws, Text("User not found"))]
      ensures roomId in rooms && UserOf(old(rooms[roomId].users), ws).Some? ==>
                var room: Room := rooms[roomId];
                var u := UserOf(old(room.users), ws).value;
                var plan := PlanConsume(room.producers, u.listenProducers, u.transport.Some?, consumable, consumerIds);
                && room.users == Replace(old(room.users), AfterConsume(u, room.producers, consumerIds, plan))
                && outbox == old(outbox) + ConsumerNotices(ws, room.producers, consumerIds, plan.created)
    {
      if roomId !in rooms {
        Send("/error", ws, Text("Room not found"));
        return;
      }
      var room: Room := rooms[roomId];
      var found := room.GetUser(ws);
      if found.None? {
        Send("/error", ws, Text("User not found"));
        return;
      }
      ConsumeEach(room, ws, found.value, consumable, consumerIds);
    }

    /**
     * The loop of `handleCreateConsumer` for `ws`'s record `user`: one pass
     * over the producers the user does not listen to yet, skipping the ones
     * not found or not consumable, and stopping at the first consume that
     * throws (which happens after the id was pushed onto listenProducers).
     */
    method ConsumeEach(room: Room, ws: Socket, user: User, consumable: set<Id>, consumerIds: map<Id, Id>)
      requires room.Valid() && UserOf(room.users, ws) == Some(user)
      modifies this`outbox, room`users
      ensures room.Valid()
      ensures var plan := PlanConsume(room.producers, user.listenProducers, user.transport.Some?, consumable, consumerIds);
              && room.users == Replace(old(room.users), AfterConsume(user, room.producers, consumerIds, plan))
              && outbox == old(outbox) + ConsumerNotices(ws, room.producers, consumerIds, plan.created)
    {
      var consumeProducerList := ConsumeList(room.producers, user.listenProducers);
      var transport := room.GetTransport(ws);
      ghost var entries := room.producers;
      ghost var eligible := Eligible(entries, consumable);
      ghost var ok := Accepted(user.transport.Some?, consumerIds);
      ghost var done: seq<Id> := [];
      ghost var users0, outbox0 := room.users, outbox;
      assert transport.Some? == user.transport.Some?;
      assert AfterConsume(user, entries, consumerIds, ConsumePlan([], [])) == user;
      ReplaceSelf(room.users, ws);
      for k := 0 to |consumeProducerList|
        invariant room.Valid()
        invariant done == Filter(consumeProducerList[..k], eligible)
        invariant AllIn(done, consumerIds)
        invariant forall j :: 0 <= j < |done| ==> done[j] in ok
        invariant room.users == Replace(users0, AfterConsume(user, entries, consumerIds, ConsumePlan(done, done)))
        invariant outbox == outbox0 + ConsumerNotices(ws, entries, consumerIds, done)
      {
        var producerId := consumeProducerList[k];
        FilterStep(consumeProducerList, k, eligible);
        ghost var current := AfterConsume(user, entries, consumerIds, ConsumePlan(done, done));
        ReplaceUserOf(users0, current);
        var stop := ConsumeOne(room, ws, producerId, transport.Some?, consumable, consumerIds);
        if stop {
          StopAdvance(users0, user, entries, user.transport.Some?, consumable, consumerIds, k, done);
          return;
        }
        if eligible(producerId) {
          assert producerId in ok;
          ConsumeAdvance(users0, outbox0, ws, user, entries, consumerIds, done, producerId);
          done := done + [producerId];
        }
      }
      assert consumeProducerList[..|consumeProducerList|] == consumeProducerList;
      PlanCompletes(entries, user.listenProducers, user.transport.Some?, consumable, consumerIds, done);
    }

    /**
     * One pass of that loop, for producer `producerId`: nothing unless it is
     * found and consumable; then its id is pushed onto listenProducers and,
     * unless the consume throws (`stop`), the consumer is recorded and
     * announced.
     */
    method ConsumeOne(room: Room, ws: Socket, producerId: Id, hasTransport: bool, consumable: set<Id>, consumerIds: map<Id, Id>)
      returns (stop: bool)
      requires room.Valid() && UserOf(room.users, ws).Some?
      modifies this`outbox, room`users
      ensures room.Valid()
      ensures var u := UserOf(old(room.users), ws).value;
              var listened := u.(listenProducers := u.listenProducers + [producerId]);
              if !Eligible(room.producers, consumable)(producerId) then
                && !stop && room.users == old(room.users) && outbox == old(outbox)
              else if !hasTransport || producerId !in consumerIds then
                && stop && room.users == Replace(old(room.users), listened) && outbox == old(outbox)
              else
                && !stop
                && room.users == Replace(old(room.users), listened.(consumers := listened.consumers + [ConsumerOf(room.producers, consumerIds, producerId)]))
                && outbox == old(outbox) + [ConsumerNotice(ws, room.producers, consumerIds, producerId)]
    {
      stop := false;
      var producer := FindProducerById(room.producers, producerId);
      if producer.None? || producerId !in consumable {
        return;
      }
      ghost var u := UserOf(room.users, ws).value;
      ghost var listened := u.(listenProducers := u.listenProducers + [producerId]);
      room.AddListenProducersForConsumer(ws, producerId);
      if !hasTransport || producerId !in consumerIds {
        stop := true;
        return;
      }
      var consumer := Consumer(consumerIds[producerId], producerId, producer.value.kind);
      ReplaceUserOf(old(room.users), listened);
      room.AddConsumer(ws, consumer);
      ReplaceTwice(old(room.users), listened, listened.(consumers := listened.consumers + [consumer]));
      Send("/createConsumer", ws, ConsumerCreated(consumer.id, producerId, consumer.kind, producer.value.appointment));
    }

    /**
     * `handleJoinRoom`: enrols `ws` as a consumer named after the clock,
     * files the connection under the room and asks for a transport
     * (`None` when that throws, and then no reply).
     */
    method HandleJoinRoom(ws: Socket, roomId: RoomId, userId: Option<UserId>, now: nat, transportId: Option<Id>)
      requires Valid()
      modifies this`currentRoom, this`outbox, RoomAt(roomId)`users, RoomAt(roomId)`transports
      ensures Valid()
      ensures roomId !in rooms ==> currentRoom == old(currentRoom) && outbox == old(outbox)
      ensures roomId in rooms ==>
                var room: Room := rooms[roomId];
                && room.users == Enrolled(old(room.users), ws, "consumer - " + Decimal(now), "consumer", userId, transportId)
                && room.transports == old(room.transports) + NewTransports(ws, transportId)
                && currentRoom == old(currentRoom)[ws := roomId]
                && outbox == old(outbox)
                     + (if transportId.Some? then [Reply("/joinedRoom", ws, JoinedRoom(UserResponse(transportId.value, room.router.value)))] else [])
    {
      if roomId !in rooms {
        return;
      }
      var room: Room := rooms[roomId];
      var name := "consumer - " + Decimal(now);
      var transport := Enrol(room, ws, name, "consumer", userId, transportId);
      currentRoom := currentRoom[ws := roomId];
      if transport.Some? {
        Send("/joinedRoom", ws, JoinedRoom(UserResponse(transport.value.id, room.router.value)));
      }
    }

    /**
     * `muteMicro`: pauses (or resumes) every audio producer of the room and
     * tells every user, the sender included.
     */
    method MuteMicro(ws: Socket, mute: bool, roomId: RoomId)
      modifies this`outbox, this`engineLog
      ensures roomId !in rooms ==>
                && engineLog == old(engineLog)
                && outbox == old(outbox) + [Envelope(ws, Typed("error", Text("Room not found")))]
      ensures roomId in rooms ==>
                var room: Room := rooms[roomId];
                && engineLog == old(engineLog) + MuteCalls(AudioIds(room.producers), mute)
                && outbox == old(outbox) + Fanout(room.users, Typed("mute", MuteState(mute)), None)
    {
      if roomId !in rooms {
        outbox := outbox + [Envelope(ws, Typed("error", Text("Room not found")))];
        return;
      }
      var room: Room := rooms[roomId];
      var producersId := AudioIds(room.producers);
      var calls := PauseAll(room.producers, producersId, mute);
      engineLog := engineLog + calls;
      assert engineLog == old(engineLog) + MuteCalls(AudioIds(room.producers), mute);
      var sent := room.Broadcast(Typed("mute", MuteState(mute)), None);
      outbox := outbox + sent;
    }

    /**
     * `handleRemoveProducer`: closes the producer, which stays listed in the
     * room and in its owner's record; an unknown id does nothing.
     */
    method HandleRemoveProducer(ws: Socket, producerId: Id, roomId: RoomId)
      modifies this`outbox, this`engineLog
      ensures roomId !in rooms ==>
                && engineLog == old(engineLog)
                && outbox == old(outbox) + [Reply("/error", ws, Text("Room not found"))]
      ensures roomId in rooms ==>
                && outbox == old(outbox)
                && engineLog == old(engineLog)
                     + (if FindProducerById(rooms[roomId].producers, producerId).Some?
                        then [CloseProducer(producerId)] else [])
    {
      if roomId !in rooms {
        Send("/error", ws, Text("Room not found"));
        return;
      }
      var room: Room := rooms[roomId];
      var producer := FindProducerById(room.producers, producerId);
      if producer.None? {
        return;
      }
      engineLog := engineLog + [CloseProducer(producer.value.id)];
    }

    /**
     * `handleSendMessage`: appends a chat entry signed with the sender's
     * name and sends it to every user; a sender without a record does
     * nothing.
     */
    method HandleSendMessage(ws: Socket, roomId: RoomId, body: string, now: int)
      modifies this`outbox, RoomAt(roomId)`message
      ensures roomId !in rooms ==> outbox == old(outbox) + [Envelope(ws, Typed("error", Text("Room not found")))]
      ensures roomId in rooms && UserOf(old(rooms[roomId].users), ws).None? ==>
                outbox == old(outbox) && rooms[roomId].message == old(rooms[roomId].message)
      ensures roomId in rooms && UserOf(old(rooms[roomId].users), ws).Some? ==>
                var room: Room := rooms[roomId];
                var data := ChatMessage(now, body, now, UserOf(old(room.users), ws).value.name);
                && room.message == old(room.message) + [data]
                && outbox == old(outbox) + Fanout(room.users, Typed("updateChat", UpdateChat(data)), None)
    {
      if roomId !in rooms {
        outbox := outbox + [Envelope(ws, Typed("error", Text("Room not found")))];
        return;
      }
      var room: Room := rooms[roomId];
      var user := room.GetUser(ws);
      if user.None? {
        return;
      }
      var msg := room.SendMessage(user.value.name, body, now);
      var sent := room.BroadcastAll(Typed("updateChat", UpdateChat(msg)));
      outbox := outbox + sent;
    }

    /**
     * `handleLeaveUser` (on a closed connection): a leaving producer puts
     * the room to sleep, tells the others and starts the removal timer;
     * anyone else is removed with their media.
     */
    method HandleLeaveUser(ws: Socket)
      requires Valid()
      modifies this`outbox, this`engineLog
      modifies LeaveRoom(ws)`users, LeaveRoom(ws)`transports, LeaveRoom(ws)`producers
      modifies LeaveRoom(ws)`active, LeaveRoom(ws)`producerTimeout, LeaveRoom(ws)`timerPending
      ensures Valid()
      ensures LeaveRoom(ws) == {} ==> outbox == old(outbox) && engineLog == old(engineLog)
      ensures LeaveRoom(ws) != {} ==>
                var r := rooms[currentRoom[ws]];
                var user := UserOf(old(r.users), ws);
                if user.Some? && user.value.role == Some("producer") then
                  && r.active == Sleep && r.producerTimeout && r.timerPending
                  && r.users == old(r.users) && r.transports == old(r.transports) && r.producers == old(r.producers)
                  && engineLog == old(engineLog)
                  && outbox == old(outbox) + Fanout(r.users, Typed("sleep", NoFields), Some(ws))
                else
                  && r.active == old(r.active) && r.producerTimeout == old(r.producerTimeout)
                  && r.timerPending == old(r.timerPending)
                  && outbox == old(outbox)
                  && UserOf(r.users, ws).None?
                  && match user
                     case None =>
                       && engineLog == old(engineLog)
                       && r.users == old(r.users) && r.transports == old(r.transports)
                       && r.producers == old(r.producers)
                     case Some(u) =>
                       && engineLog == old(engineLog) + RemovalCloses(u)
                       && r.users == Filter(old(r.users), NotOwnedBy(ws))
                       && r.transports == Filter(old(r.transports), TransportNotOn(ws))
                       && r.producers == Filter(old(r.producers), EntryNotOn(ws))
    {
      if ws !in currentRoom || currentRoom[ws] == "" || currentRoom[ws] !in rooms {
        return;
      }
      var room := rooms[currentRoom[ws]];
      ghost var producers0 := room.producers;
      Leave(room, ws);
      FilterSpec(producers0, EntryNotOn(ws));
    }

    /** `handleLeaveUser` once the room is found: the producer puts the room to sleep, anyone else is removed. */
    method Leave(room: Room, ws: Socket)
      requires room.Valid()
      modifies this`outbox, this`engineLog
      modifies room`users, room`transports, room`producers, room`active, room`producerTimeout, room`timerPending
      ensures room.Valid()
      ensures var user := UserOf(old(room.users), ws);
              if user.Some? && user.value.role == Some("producer") then
                && room.active == Sleep && room.producerTimeout && room.timerPending
                && room.users == old(room.users) && room.transports == old(room.transports)
                && room.producers == old(room.producers)
                && engineLog == old(engineLog)
                && outbox == old(outbox) + Fanout(room.users, Typed("sleep", NoFields), Some(ws))
              else
                && room.active == old(room.active) && room.producerTimeout == old(room.producerTimeout)
                && room.timerPending == old(room.timerPending)
                && outbox == old(outbox)
                && UserOf(room.users, ws).None?
                && match user
                   case None =>
                     && engineLog == old(engineLog)
                     && room.users == old(room.users) && room.transports == old(room.transports)
                     && room.producers == old(room.producers)
                   case Some(u) =>
                     && engineLog == old(engineLog) + RemovalCloses(u)
                     && room.users == Filter(old(room.users), NotOwnedBy(ws))
                     && room.transports == Filter(old(room.transports), TransportNotOn(ws))
                     && room.producers == Filter(old(room.producers), EntryNotOn(ws))
    {
      var user := room.GetUser(ws);
      if user.Some? && user.value.role == Some("producer") {
        room.SetActiveRoom(Sleep);
        var sent := room.Broadcast(Typed("sleep", NoFields), Some(ws));
        outbox := outbox + sent;
        room.StartProducerTimeout();
      } else {
        var closes := room.RemoveUser(ws);
        engineLog := engineLog + closes;
      }
    }

    /**
     * `handleRestartSFU`: the producer is back; the removal timer is
     * cancelled, the room is active again and the others are told.
     */
    method HandleRestartSfu(ws: Socket, roomId: RoomId)
      requires Valid()
      modifies this`outbox, RoomAt(roomId)`active, RoomAt(roomId)`producerTimeout, RoomAt(roomId)`timerPending
      ensures Valid()
      ensures roomId !in rooms ==> outbox == old(outbox) + [Reply("/removedRoom", ws, NoFields)]
      ensures roomId in rooms ==>
                var room: Room := rooms[roomId];
                && room.active == Active && !room.producerTimeout && !room.timerPending
                && outbox == old(outbox) + Fanout(room.users, Typed("producerRestartSFU", NoFields), Some(ws))
    {
      if roomId !in rooms {
        Send("/removedRoom", ws, NoFields);
        return;
      }
      var room: Room := rooms[roomId];
      room.ClearProducerTimeout();
      room.SetActiveRoom(Active);
      var sent := room.Broadcast(Typed("producerRestartSFU", NoFields), Some(ws));
      outbox := outbox + sent;
    }

    /**
     * `handleRecconect`: re-enrols `ws` as the room's producer, sends the
     * track types to restore with the transport, and empties every user's
     * consumer list.
     */
    method HandleRecconect(ws: Socket, userId: Option<UserId>, roomId: RoomId, transportId: Option<Id>)
      requires Valid()
      modifies this`outbox, this`currentRoom
      modifies RoomAt(roomId)`users, RoomAt(roomId)`transports, RoomAt(roomId)`producerUserId
      ensures Valid()
      ensures roomId !in rooms ==>
                currentRoom == old(currentRoom) && outbox == old(outbox) + [Reply("/removedRoom", ws, NoFields)]
      ensures roomId in rooms ==>
                var room: Room := rooms[roomId];
                && room.users == ClearConsumers(Enrolled(old(room.users), ws, "PRODUCER", "producer", userId, transportId))
                && room.transports == old(room.transports) + NewTransports(ws, transportId)
                && room.producerUserId == userId
                && currentRoom == old(currentRoom)[ws := roomId]
                && outbox == old(outbox)
                     + [Reply("/startRecconect", ws, StartRecconect(TracksType(room.producers), Response(transportId, room.router.value)))]
    {
      if roomId !in rooms {
        Send("/removedRoom", ws, NoFields);
        return;
      }
      var room: Room := rooms[roomId];
      var res := GenerateUserResponse(ws, room, userId, transportId);
      var tracksType := TracksType(room.producers);
      Send("/startRecconect", ws, StartRecconect(tracksType, res));
      ClearAllConsumers(room);
    }

    /**
     * `handleTimeoutRemoveRoom`: the producer did not come back; everyone is
     * told, the room is destroyed and unregistered.
     */
    method HandleTimeoutRemoveRoom(roomId: RoomId)
      requires Valid()
      modifies this`rooms, this`outbox, this`engineLog
      modifies RoomAt(roomId)`users, RoomAt(roomId)`transports, RoomAt(roomId)`producers
      modifies RoomAt(roomId)`router, RoomAt(roomId)`worker, RoomAt(roomId)`producerUserId
      modifies RoomAt(roomId)`producerLeaveUnix, RoomAt(roomId)`producerTimeout, RoomAt(roomId)`timerPending
      ensures Valid()
      ensures roomId !in old(rooms) ==>
                rooms == old(rooms) && outbox == old(outbox) && engineLog == old(engineLog)
      ensures roomId in old(rooms) ==>
                var r := old(rooms)[roomId];
                && rooms == old(rooms) - {roomId}
                && outbox == old(outbox) + Fanout(old(r.users), Typed("removeRoom", NoFields), None)
                && engineLog == old(engineLog) + DestroyCloses(old(r.users)) + [CloseRouter(old(r.router).value)]
                     + (if old(r.worker).Some? then [CloseWorker(old(r.worker).value)] else [])
                && r.users == [] && r.transports == [] && r.producers == []
                && r.router.None? && r.worker.None? && r.producerUserId.None? && r.producerLeaveUnix == 0
                && !r.producerTimeout && !r.timerPending
                && r.message == old(r.message) && r.active == old(r.active)
    {
      if roomId !in rooms {
        return;
      }
      var room: Room := rooms[roomId];
      ghost var users0, router0, worker0 := room.users, room.router, room.worker;
      var sent := room.BroadcastAll(Typed("removeRoom", NoFields));
      outbox := outbox + sent;
      var closes := room.Destroy();
      assert closes == DestroyCloses(users0) + [CloseRouter(router0.value)]
        + (if worker0.Some? then [CloseWorker(worker0.value)] else []);
      engineLog := engineLog + closes;
      AppendAssoc(old(engineLog), DestroyCloses(users0) + [CloseRouter(router0.value)],
                  if worker0.Some? then [CloseWorker(worker0.value)] else []);
      AppendAssoc(old(engineLog), DestroyCloses(users0), [CloseRouter(router0.value)]);
      rooms := rooms - {roomId};
    }

    /**
     * The callback `startProducerTimeout` scheduled: if the room is still
     * asleep, the room registered under its id is removed.
     */
    method FireTimer(room: Room)
      requires Valid() && room.Valid() && room.timerPending
      modifies room`timerPending, this`rooms, this`outbox, this`engineLog
      modifies TimerRoom(room)`users, TimerRoom(room)`transports, TimerRoom(room)`producers
      modifies TimerRoom(room)`router, TimerRoom(room)`worker, TimerRoom(room)`producerUserId
      modifies TimerRoom(room)`producerLeaveUnix, TimerRoom(room)`producerTimeout, TimerRoom(room)`timerPending
      ensures Valid() && room.Valid() && !room.timerPending
      ensures old(room.active) != Sleep || room.roomId !in old(rooms) ==>
                && rooms == old(rooms) && outbox == old(outbox) && engineLog == old(engineLog)
                && (room.roomId in rooms ==>
                      var r := rooms[room.roomId];
                      && r.users == old(r.users) && r.transports == old(r.transports)
                      && r.producers == old(r.producers) && r.message == old(r.message)
                      && r.router == old(r.router) && r.worker == old(r.worker)
                      && r.active == old(r.active) && r.producerUserId == old(r.producerUserId)
                      && r.producerLeaveUnix == old(r.producerLeaveUnix) && r.producerTimeout == old(r.producerTimeout))
      ensures old(room.active) == Sleep && room.roomId in old(rooms) ==>
                var r := old(rooms)[room.roomId];
                && rooms == old(rooms) - {room.roomId}
                && outbox == old(outbox) + Fanout(old(r.users), Typed("removeRoom", NoFields), None)
                && engineLog == old(engineLog) + DestroyCloses(old(r.users)) + [CloseRouter(old(r.router).value)]
                     + (if old(r.worker).Some? then [CloseWorker(old(r.worker).value)] else [])
                && r.users == [] && r.transports == [] && r.producers == []
                && r.router.None? && r.worker.None? && r.producerUserId.None? && r.producerLeaveUnix == 0
                && !r.producerTimeout && !r.timerPending
                && r.message == old(r.message) && r.active == old(r.active)
    {
      room.timerPending := false;
      if room.active == Sleep {
        HandleTimeoutRemoveRoom(room.roomId);
      }
    }
  }

  /** The loop of `muteMicro`: looks each id up and pauses or resumes that producer. */
  method PauseAll(entries: seq<ProducerEntry>, ids: seq<Id>, mute: bool) returns (calls: seq<EngineCall>)
    requires ids == AudioIds(entries)
    ensures calls == MuteCalls(ids, mute)
  {
    calls := [];
    for k := 0 to |ids|
      invariant calls == MuteCalls(ids[..k], mute)
    {
      assert ids[..k + 1][..k] == ids[..k];
      var producer := FindProducerById(entries, ids[k]);
      AudioIdIsProducer(entries, k);
      if mute {
        calls := calls + [PauseProducer(producer.value.id)];
      } else {
        calls := calls + [ResumeProducer(producer.value.id)];
      }
    }
    assert ids[..|ids|] == ids;
  }

  /** A consume that throws at position `k` ends the plan there. */
  lemma ConsumeStops(list: seq<Id>, k: nat, eligible: Id -> bool, ok: set<Id>)
    requires k < |list| && eligible(list[k]) && list[k] !in ok
    requires forall j :: 0 <= j < |Filter(list[..k], eligible)| ==> Filter(list[..k], eligible)[j] in ok
    ensures var cands := Filter(list, eligible);
            var done := Filter(list[..k], eligible);
            && cands == done + [list[k]] + Filter(list[k + 1..], eligible)
            && OkPrefix(cands, ok) == |done|
            && cands[..|done| + 1] == done + [list[k]]
            && cands[..|done|] == done
  {
    var x := list[k];
    var done := Filter(list[..k], eligible);
    var rest := Filter(list[k + 1..], eligible);
    assert list[..k + 1] + list[k + 1..] == list;
    assert list[..k + 1] == list[..k] + [x];
    FilterConcat(list[..k + 1], list[k + 1..], eligible);
    FilterSnoc(list[..k], x, eligible);
    var pre := done + [x];
    assert Filter(list, eligible) == pre + rest;
    OkPrefixStop(done, x, rest, ok);
    assert (pre + rest)[..|pre|] == pre;
    assert pre[..|done|] == done;
  }

  /** A plan that stops at the `k`-th listed id: it was attempted, and only the candidates before it were consumed. */
  lemma PlanStopsAt(entries: seq<ProducerEntry>, listen: seq<Id>, hasTransport: bool,
                    consumable: set<Id>, consumerIds: map<Id, Id>, k: nat, done: seq<Id>)
    requires k < |ConsumeList(entries, listen)|
    requires done == Filter(ConsumeList(entries, listen)[..k], Eligible(entries, consumable))
    requires Eligible(entries, consumable)(ConsumeList(entries, listen)[k])
    requires ConsumeList(entries, listen)[k] !in Accepted(hasTransport, consumerIds)
    requires forall j :: 0 <= j < |done| ==> done[j] in Accepted(hasTransport, consumerIds)
    ensures PlanConsume(entries, listen, hasTransport, consumable, consumerIds)
              == ConsumePlan(done + [ConsumeList(entries, listen)[k]], done)
  {
    ConsumeStops(ConsumeList(entries, listen), k, Eligible(entries, consumable), Accepted(hasTransport, consumerIds));
  }

  /** A plan that runs through the whole list consumes every candidate. */
  lemma PlanCompletes(entries: seq<ProducerEntry>, listen: seq<Id>, hasTransport: bool,
                      consumable: set<Id>, consumerIds: map<Id, Id>, done: seq<Id>)
    requires done == Candidates(entries, listen, consumable)
    requires forall j :: 0 <= j < |done| ==> done[j] in Accepted(hasTransport, consumerIds)
    ensures PlanConsume(entries, listen, hasTransport, consumable, consumerIds) == ConsumePlan(done, done)
  {
    OkPrefixAll(done, Accepted(hasTransport, consumerIds));
    assert done[..|done|] == done;
  }

  /** Pushing one more id onto listenProducers, without consuming it. */
  lemma ListenStep(user: User, entries: seq<ProducerEntry>, consumerIds: map<Id, Id>, done: seq<Id>, pid: Id)
    requires AllIn(done, consumerIds)
    ensures var current := AfterConsume(user, entries, consumerIds, ConsumePlan(done, done));
            AfterConsume(user, entries, consumerIds, ConsumePlan(done + [pid], done))
              == current.(listenProducers := current.listenProducers + [pid])
  {
    assert user.listenProducers + (done + [pid]) == user.listenProducers + done + [pid];
  }

  /** Pushing one more id and consuming it: one more consumer and one more reply. */
  lemma ConsumeStep(ws: Socket, user: User, entries: seq<ProducerEntry>, consumerIds: map<Id, Id>, done: seq<Id>, pid: Id)
    requires AllIn(done, consumerIds) && pid in consumerIds
    ensures AllIn(done + [pid], consumerIds)
    ensures var current := AfterConsume(user, entries, consumerIds, ConsumePlan(done, done));
            AfterConsume(user, entries, consumerIds, ConsumePlan(done + [pid], done + [pid]))
              == current.(listenProducers := current.listenProducers + [pid],
                          consumers := current.consumers + [ConsumerOf(entries, consumerIds, pid)])
    ensures ConsumerNotices(ws, entries, consumerIds, done + [pid])
              == ConsumerNotices(ws, entries, consumerIds, done) + [ConsumerNotice(ws, entries, consumerIds, pid)]
  {
    var ids := done + [pid];
    assert ids[..|ids| - 1] == done;
    assert user.listenProducers + ids == user.listenProducers + done + [pid];
    assert NewConsumers(entries, consumerIds, ids) == NewConsumers(entries, consumerIds, done) + [ConsumerOf(entries, consumerIds, pid)];
    assert user.consumers + NewConsumers(entries, consumerIds, ids)
             == user.consumers + NewConsumers(entries, consumerIds, done) + [ConsumerOf(entries, consumerIds, pid)];
  }

  /** One consumed producer, as the loop of `handleCreateConsumer` records it. */
  lemma ConsumeAdvance(users0: seq<User>, outbox0: seq<Envelope>, ws: Socket, user: User,
                       entries: seq<ProducerEntry>, consumerIds: map<Id, Id>, done: seq<Id>, pid: Id)
    requires AllIn(done, consumerIds) && pid in consumerIds
    ensures AllIn(done + [pid], consumerIds)
    ensures var current := AfterConsume(user, entries, consumerIds, ConsumePlan(done, done));
            Replace(Replace(users0, current),
                    current.(listenProducers := current.listenProducers + [pid],
                             consumers := current.consumers + [ConsumerOf(entries, consumerIds, pid)]))
              == Replace(users0, AfterConsume(user, entries, consumerIds, ConsumePlan(done + [pid], done + [pid])))
    ensures outbox0 + ConsumerNotices(ws, entries, consumerIds, done) + [ConsumerNotice(ws, entries, consumerIds, pid)]
              == outbox0 + ConsumerNotices(ws, entries, consumerIds, done + [pid])
  {
    ConsumeStep(ws, user, entries, consumerIds, done, pid);
    var current := AfterConsume(user, entries, consumerIds, ConsumePlan(done, done));
    var next := AfterConsume(user, entries, consumerIds, ConsumePlan(done + [pid], done + [pid]));
    ReplaceTwice(users0, current, next);
    AppendAssoc(outbox0, ConsumerNotices(ws, entries, consumerIds, done), [ConsumerNotice(ws, entries, consumerIds, pid)]);
  }

  /** The consume that throws, as the loop of `handleCreateConsumer` ends on it. */
  lemma StopAdvance(users0: seq<User>, user: User, entries: seq<ProducerEntry>, hasTransport: bool,
                    consumable: set<Id>, consumerIds: map<Id, Id>, k: nat, done: seq<Id>)
    requires k < |ConsumeList(entries, user.listenProducers)|
    requires done == Filter(ConsumeList(entries, user.listenProducers)[..k], Eligible(entries, consumable))
    requires Eligible(entries, consumable)(ConsumeList(entries, user.listenProducers)[k])
    requires ConsumeList(entries, user.listenProducers)[k] !in Accepted(hasTransport, consumerIds)
    requires forall j :: 0 <= j < |done| ==> done[j] in Accepted(hasTransport, consumerIds)
    ensures AllIn(done, consumerIds)
    ensures PlanConsume(entries, user.listenProducers, hasTransport, consumable, consumerIds).created == done
    ensures var current := AfterConsume(user, entries, consumerIds, ConsumePlan(done, done));
            var pid := ConsumeList(entries, user.listenProducers)[k];
            Replace(Replace(users0, current), current.(listenProducers := current.listenProducers + [pid]))
              == Replace(users0, AfterConsume(user, entries, consumerIds,
                                              PlanConsume(entries, user.listenProducers, hasTransport, consumable, consumerIds)))
  {
    var pid := ConsumeList(entries, user.listenProducers)[k];
    assert AllIn(done, consumerIds) by {
      forall j | 0 <= j < |done| ensures done[j] in consumerIds {
        assert done[j] in Accepted(hasTransport, consumerIds);
      }
    }
    var current := AfterConsume(user, entries, consumerIds, ConsumePlan(done, done));
    ReplaceTwice(users0, current, current.(listenProducers := current.listenProducers + [pid]));
    PlanStopsAt(entries, user.listenProducers, hasTransport, consumable, consumerIds, k, done);
    ListenStep(user, entries, consumerIds, done, pid);
  }

  /** Every id on the mute list names a producer of the room. */
  lemma AudioIdIsProducer(entries: seq<ProducerEntry>, k: nat)
    requires k < |AudioIds(entries)|
    ensures FindProducerById(entries, AudioIds(entries)[k]).Some?
    ensures FindProducerById(entries, AudioIds(entries)[k]).value.id == AudioIds(entries)[k]
  {
    var audio := Filter(entries, IsAudio());
    FilterSpec(entries, IsAudio());
    assert audio[k] in entries;
    var i :| 0 <= i < |entries| && entries[i] == audio[k];
    FindProducerByIdSpec(entries, audio[k].producer.id);
  }
}
