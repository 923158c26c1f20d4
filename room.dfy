/**
 * The room aggregate of room.js: the users of one session (keyed by their
 * connection), the transports and producers created for them, the chat
 * history, the lifecycle string `active`, the primary producer's user id and
 * the single reconnect timer.
 */
module Rooms {
  import opened Wrappers
  import opened Seqs
  import opened Media
  import opened Protocol

  /** The lifecycle string `active`: 'live' at creation, then 'sleep' or 'active'. */
  datatype Activity = Live | Sleep | Active

  /** One user record; `role` is the record's `type` ('producer' / 'consumer'). */
  datatype User = User(
    socket: Socket,
    transport: Option<Transport>,
    producers: seq<Producer>,
    consumers: seq<Consumer>,
    listenProducers: seq<Id>,
    name: string,
    role: Option<string>,
    userId: Option<UserId>)

  /** The record `addUser` pushes for a new connection. */
  function NewUser(ws: Socket): User {
    User(ws, None, [], [], [], "", None, None)
  }

  /** An entry of the room-wide `producers` list: `{socket, producer}`. */
  datatype ProducerEntry = ProducerEntry(socket: Socket, producer: Producer)

  function OwnedBy(ws: Socket): User -> bool { (u: User) => u.socket == ws }
  function NotOwnedBy(ws: Socket): User -> bool { (u: User) => u.socket != ws }
  function TransportNotOn(ws: Socket): Transport -> bool { (t: Transport) => t.socket != ws }
  function EntryNotOn(ws: Socket): ProducerEntry -> bool { (e: ProducerEntry) => e.socket != ws }
  function EntryWithId(id: Id): ProducerEntry -> bool { (e: ProducerEntry) => e.producer.id == id }

  /** No connection has two user records. */
  ghost predicate UniqueSockets(users: seq<User>) {
    forall i, j :: 0 <= i < j < |users| ==> users[i].socket != users[j].socket
  }

  /** `addUser(ws)` on the users list: a fresh record only if `ws` has none. */
  function Admit(users: seq<User>, ws: Socket): (r: seq<User>)
    ensures Find(r, OwnedBy(ws)).Some?
    ensures Find(users, OwnedBy(ws)).Some? ==> r == users
    ensures Find(users, OwnedBy(ws)).None? ==> r == users + [NewUser(ws)]
  {
    if Find(users, OwnedBy(ws)).Some? then users
    else
      var r := users + [NewUser(ws)];
      FindSome(r, OwnedBy(ws), |users|);
      r
  }

  /** The users list with the record of `u.socket` (if there is one) replaced by `u`. */
  function Replace(users: seq<User>, u: User): (r: seq<User>)
    ensures |r| == |users|
  {
    match Find(users, OwnedBy(u.socket))
    case Some(i) => users[i := u]
    case None => users
  }

  /** Replacing changes only the record of `u.socket`, and no record's connection. */
  lemma ReplaceSpec(users: seq<User>, u: User)
    ensures forall i :: 0 <= i < |users| && users[i].socket != u.socket ==> Replace(users, u)[i] == users[i]
    ensures forall i :: 0 <= i < |users| ==> Replace(users, u)[i].socket == users[i].socket
  {
  }

  /** After a replacement the connection's record is the new one. */
  lemma ReplaceFind(users: seq<User>, u: User)
    ensures Find(Replace(users, u), OwnedBy(u.socket)) == Find(users, OwnedBy(u.socket))
    ensures Find(users, OwnedBy(u.socket)).Some? ==> Replace(users, u)[Find(users, OwnedBy(u.socket)).value] == u
  {
    var p := OwnedBy(u.socket);
    var r := Replace(users, u);
    FindSpec(users, p);
    FindSpec(r, p);
    match Find(users, p)
    case None =>
    case Some(i) =>
      assert p(r[i]);
  }

  /** A second replacement of the same record overrides the first. */
  lemma ReplaceTwice(users: seq<User>, a: User, b: User)
    requires a.socket == b.socket
    ensures Replace(Replace(users, a), b) == Replace(users, b)
  {
    ReplaceFind(users, a);
  }

  /** The record `Admit` leaves for `ws`: the existing one, or a fresh one. */
  lemma AdmitFind(users: seq<User>, ws: Socket)
    ensures Find(Admit(users, ws), OwnedBy(ws)).Some?
    ensures var r := Admit(users, ws);
            r[Find(r, OwnedBy(ws)).value] ==
            match Find(users, OwnedBy(ws)) case Some(i) => users[i] case None => NewUser(ws)
  {
    FindSpec(users, OwnedBy(ws));
    FindSpec(Admit(users, ws), OwnedBy(ws));
  }

  /** `findProducerById(id)`: the producer of the first entry with that id. */
  function FindProducerById(entries: seq<ProducerEntry>, id: Id): (r: Option<Producer>)
    ensures r.Some? ==> r.value.id == id
  {
    match Find(entries, EntryWithId(id))
    case Some(i) => Some(entries[i].producer)
    case None => None
  }

  /**
   * A producer is found exactly when some entry has the id, and it is that
   * of the first such entry.
   */
  lemma FindProducerByIdSpec(entries: seq<ProducerEntry>, id: Id)
    ensures FindProducerById(entries, id).Some? <==> exists i :: 0 <= i < |entries| && entries[i].producer.id == id
    ensures FindProducerById(entries, id).Some? ==>
              exists i :: 0 <= i < |entries| && entries[i].producer == FindProducerById(entries, id).value &&
                          forall j :: 0 <= j < i ==> entries[j].producer.id != id
  {
    FindSpec(entries, EntryWithId(id));
    if Find(entries, EntryWithId(id)).Some? {
      var i := Find(entries, EntryWithId(id)).value;
      assert entries[i].producer == FindProducerById(entries, id).value;
    }
  }

  lemma {:induction false} AdmitKeepsUnique(users: seq<User>, ws: Socket)
    requires UniqueSockets(users)
    ensures UniqueSockets(Admit(users, ws))
  {
    FindSpec(users, OwnedBy(ws));
    if Find(users, OwnedBy(ws)).None? {
      var r := Admit(users, ws);
      forall i, j | 0 <= i < j < |r| ensures r[i].socket != r[j].socket {
        if j == |users| {
          assert !OwnedBy(ws)(users[i]);
        }
      }
    }
  }

  lemma ReplaceKeepsUnique(users: seq<User>, u: User)
    requires UniqueSockets(users)
    ensures UniqueSockets(Replace(users, u))
  {
  }

  /** A connection with a record in a list without repeated connections has exactly one. */
  lemma {:induction false} OneRecordEach(users: seq<User>, ws: Socket)
    requires UniqueSockets(users)
    ensures Count(users, OwnedBy(ws)) == if Find(users, OwnedBy(ws)).Some? then 1 else 0
  {
    if |users| > 0 {
      var init := users[..|users| - 1];
      assert UniqueSockets(init);
      OneRecordEach(init, ws);
      FindSpec(init, OwnedBy(ws));
      FindSpec(users, OwnedBy(ws));
      if OwnedBy(ws)(users[|users| - 1]) {
        assert forall j :: 0 <= j < |init| ==> !OwnedBy(ws)(init[j]);
        assert Find(init, OwnedBy(ws)).None?;
      } else if Find(init, OwnedBy(ws)).Some? {
        assert Find(users, OwnedBy(ws)).Some?;
      } else {
        assert Find(users, OwnedBy(ws)).None?;
      }
    }
  }

  /** `addUser` for each connection of `sockets`, in order. */
  function AdmitAll(users: seq<User>, sockets: seq<Socket>): seq<User>
    decreases sockets
  {
    if |sockets| == 0 then users else AdmitAll(Admit(users, sockets[0]), sockets[1..])
  }

  /**
   * However often and in whatever order connections are added, every one of
   * them ends up with exactly one record and no connection gets two.
   */
  lemma {:induction false} AddUserExactlyOnce(users: seq<User>, sockets: seq<Socket>, ws: Socket)
    requires UniqueSockets(users)
    requires ws in sockets || Find(users, OwnedBy(ws)).Some?
    ensures UniqueSockets(AdmitAll(users, sockets))
    ensures Count(AdmitAll(users, sockets), OwnedBy(ws)) == 1
    decreases sockets
  {
    if |sockets| == 0 {
      OneRecordEach(users, ws);
    } else {
      AdmitKeepsUnique(users, sockets[0]);
      if ws != sockets[0] && ws !in sockets[1..] {
        FindSnoc(users, NewUser(sockets[0]), ws);
      }
      AddUserExactlyOnce(Admit(users, sockets[0]), sockets[1..], ws);
    }
  }

  /** `CloseProducer` for each producer, in order. */
  function ProducerCloses(ps: seq<Producer>): (r: seq<EngineCall>)
    ensures |r| == |ps|
    ensures forall k :: 0 <= k < |ps| ==> r[k] == CloseProducer(ps[k].id)
  {
    if |ps| == 0 then [] else ProducerCloses(ps[..|ps| - 1]) + [CloseProducer(ps[|ps| - 1].id)]
  }

  /** `CloseConsumer` for each consumer, in order. */
  function ConsumerCloses(cs: seq<Consumer>): (r: seq<EngineCall>)
    ensures |r| == |cs|
    ensures forall k :: 0 <= k < |cs| ==> r[k] == CloseConsumer(cs[k].id)
  {
    if |cs| == 0 then [] else ConsumerCloses(cs[..|cs| - 1]) + [CloseConsumer(cs[|cs| - 1].id)]
  }

  function TransportCloses(t: Option<Transport>): seq<EngineCall> {
    if t.Some? then [CloseTransport(t.value.id)] else []
  }

  /** What `removeUser` closes for one user: its producers, then consumers, then transport. */
  function RemovalCloses(u: User): seq<EngineCall> {
    ProducerCloses(u.producers) + ConsumerCloses(u.consumers) + TransportCloses(u.transport)
  }

  /** What `destroy` closes for one user: its consumers, then producers, then transport. */
  function TeardownCloses(u: User): seq<EngineCall> {
    ConsumerCloses(u.consumers) + ProducerCloses(u.producers) + TransportCloses(u.transport)
  }

  /** `destroy`'s closes for every user, user by user. */
  function DestroyCloses(users: seq<User>): seq<EngineCall> {
    if |users| == 0 then [] else DestroyCloses(users[..|users| - 1]) + TeardownCloses(users[|users| - 1])
  }

  /** A user's every producer, consumer and transport is closed, and nothing else. */
  lemma ClosesCoverUser(u: User)
    ensures forall p :: p in u.producers ==> CloseProducer(p.id) in RemovalCloses(u) && CloseProducer(p.id) in TeardownCloses(u)
    ensures forall c :: c in u.consumers ==> CloseConsumer(c.id) in RemovalCloses(u) && CloseConsumer(c.id) in TeardownCloses(u)
    ensures u.transport.Some? ==> CloseTransport(u.transport.value.id) in RemovalCloses(u) && CloseTransport(u.transport.value.id) in TeardownCloses(u)
    ensures |RemovalCloses(u)| == |TeardownCloses(u)| == |u.producers| + |u.consumers| + |TransportCloses(u.transport)|
  {
    var pc, cc, tc := ProducerCloses(u.producers), ConsumerCloses(u.consumers), TransportCloses(u.transport);
    forall p | p in u.producers ensures CloseProducer(p.id) in pc {
      var k :| 0 <= k < |u.producers| && u.producers[k] == p;
      assert pc[k] == CloseProducer(p.id);
    }
    forall c | c in u.consumers ensures CloseConsumer(c.id) in cc {
      var k :| 0 <= k < |u.consumers| && u.consumers[k] == c;
      assert cc[k] == CloseConsumer(c.id);
    }
  }

  /** `destroy` closes every resource of every user of the room. */
  lemma {:induction false} DestroyClosesEveryUser(users: seq<User>, u: User)
    requires u in users
    ensures forall e :: e in TeardownCloses(u) ==> e in DestroyCloses(users)
  {
    var init := users[..|users| - 1];
    if u == users[|users| - 1] {
    } else {
      assert u in init;
      DestroyClosesEveryUser(init, u);
    }
  }

  /** The messages `broadcast(msg, except)` sends: one per user not on `except`, in order. */
  function Fanout(users: seq<User>, msg: Message, except: Option<Socket>): (r: seq<Envelope>)
    ensures |r| <= |users|
  {
    if |users| == 0 then []
    else
      var init := users[..|users| - 1];
      var u := users[|users| - 1];
      Fanout(init, msg, except) + (if Some(u.socket) == except then [] else [Envelope(u.socket, msg)])
  }

  /**
   * A broadcast carries `msg` to users of the room only, never to `except`,
   * and to every other user.
   */
  lemma {:induction false} FanoutSpec(users: seq<User>, msg: Message, except: Option<Socket>)
    ensures forall k :: 0 <= k < |Fanout(users, msg, except)| ==>
              Fanout(users, msg, except)[k].msg == msg && Some(Fanout(users, msg, except)[k].to) != except
    ensures forall k :: 0 <= k < |Fanout(users, msg, except)| ==>
              exists i :: 0 <= i < |users| && users[i].socket == Fanout(users, msg, except)[k].to
    ensures forall i :: 0 <= i < |users| && Some(users[i].socket) != except ==>
              Envelope(users[i].socket, msg) in Fanout(users, msg, except)
  {
    if |users| > 0 {
      var init := users[..|users| - 1];
      var u := users[|users| - 1];
      FanoutSpec(init, msg, except);
      var f := Fanout(init, msg, except);
      var r := Fanout(users, msg, except);
      assert forall i :: 0 <= i < |init| ==> init[i] == users[i];
      forall k | 0 <= k < |r|
        ensures r[k].msg == msg && Some(r[k].to) != except
        ensures exists i :: 0 <= i < |users| && users[i].socket == r[k].to
      {
        if k < |f| {
          assert r[k] == f[k];
          var i :| 0 <= i < |init| && init[i].socket == f[k].to;
          assert users[i].socket == r[k].to;
        } else {
          assert users[|users| - 1].socket == r[k].to;
        }
      }

      forall i | 0 <= i < |users| && Some(users[i].socket) != except
        ensures Envelope(users[i].socket, msg) in r
      {
        if i < |init| {
          var k :| 0 <= k < |f| && f[k] == Envelope(users[i].socket, msg);
          assert r[k] == f[k];
        } else {
          assert r[|r| - 1] == Envelope(users[i].socket, msg);
        }
      }
    } else {
      assert Fanout(users, msg, except) == [];
    }
  }

  function AddressedTo(s: Socket): Envelope -> bool { (e: Envelope) => e.to == s }

  /**
   * A broadcast reaches each connection of the room but the excluded one
   * exactly once, and no other connection.
   */
  lemma {:induction false} FanoutExactlyOnce(users: seq<User>, msg: Message, except: Option<Socket>, s: Socket)
    requires UniqueSockets(users)
    ensures Count(Fanout(users, msg, except), AddressedTo(s)) ==
      if Find(users, OwnedBy(s)).Some? && Some(s) != except then 1 else 0
  {
    if |users| > 0 {
      var init := users[..|users| - 1];
      var u := users[|users| - 1];
      assert users == init + [u];
      var f := Fanout(init, msg, except);
      var tail := if Some(u.socket) == except then [] else [Envelope(u.socket, msg)];
      assert Fanout(users, msg, except) == f + tail;
      CountConcat(f, tail, AddressedTo(s));
      FindSnoc(init, u, s);
      CountTail(tail, u, msg, except, s);
      UniqueInit(users, init);
      if u.socket == s {
        FanoutMissesStrangers(init, msg, except, s);
      } else {
        FanoutExactlyOnce(init, msg, except, s);
      }
    }
  }

  /** Dropping the last record keeps connections distinct, and none of the rest is the last one's. */
  lemma UniqueInit(users: seq<User>, init: seq<User>)
    requires UniqueSockets(users) && |users| > 0 && init == users[..|users| - 1]
    ensures UniqueSockets(init)
    ensures forall j :: 0 <= j < |init| ==> init[j].socket != users[|users| - 1].socket
  {
  }

  lemma CountTail(tail: seq<Envelope>, u: User, msg: Message, except: Option<Socket>, s: Socket)
    requires tail == if Some(u.socket) == except then [] else [Envelope(u.socket, msg)]
    ensures Count(tail, AddressedTo(s)) == if u.socket == s && Some(s) != except then 1 else 0
  {
    if |tail| == 1 {
      assert tail[..0] == [];
    }
  }

  /** A connection without a record gets nothing from a broadcast. */
  lemma FanoutMissesStrangers(users: seq<User>, msg: Message, except: Option<Socket>, s: Socket)
    requires forall j :: 0 <= j < |users| ==> users[j].socket != s
    ensures Count(Fanout(users, msg, except), AddressedTo(s)) == 0
  {
    var f := Fanout(users, msg, except);
    FanoutSpec(users, msg, except);
    forall k | 0 <= k < |f| ensures !AddressedTo(s)(f[k]) {
      var i :| 0 <= i < |users| && users[i].socket == f[k].to;
    }
  }

  /** Appending a record adds its connection and no other. */
  lemma FindSnoc(users: seq<User>, u: User, ws: Socket)
    ensures Find(users + [u], OwnedBy(ws)).Some? <==> Find(users, OwnedBy(ws)).Some? || u.socket == ws
  {
    var r := users + [u];
    FindSpec(users, OwnedBy(ws));
    FindSpec(r, OwnedBy(ws));
    if Find(users, OwnedBy(ws)).Some? {
      assert OwnedBy(ws)(r[Find(users, OwnedBy(ws)).value]);
    }
    if u.socket == ws {
      assert OwnedBy(ws)(r[|users|]);
    }
    if Find(r, OwnedBy(ws)).Some? && Find(r, OwnedBy(ws)).value < |users| {
      assert OwnedBy(ws)(users[Find(r, OwnedBy(ws)).value]);
    }
  }

  /** The closes of a list of producers, one by one. */
  method CloseProducers(ps: seq<Producer>) returns (closes: seq<EngineCall>)
    ensures closes == ProducerCloses(ps)
  {
    closes := [];
    for j := 0 to |ps|
      invariant closes == ProducerCloses(ps[..j])
    {
      assert ps[..j + 1][..j] == ps[..j];
      closes := closes + [CloseProducer(ps[j].id)];
    }
    assert ps[..|ps|] == ps;
  }

  /** The closes of a list of consumers, one by one. */
  method CloseConsumers(cs: seq<Consumer>) returns (closes: seq<EngineCall>)
    ensures closes == ConsumerCloses(cs)
  {
    closes := [];
    for j := 0 to |cs|
      invariant closes == ConsumerCloses(cs[..j])
    {
      assert cs[..j + 1][..j] == cs[..j];
      closes := closes + [CloseConsumer(cs[j].id)];
    }
    assert cs[..|cs|] == cs;
  }

  /** One user's part of `destroy`: consumers, producers, then the transport. */
  method Teardown(u: User) returns (closes: seq<EngineCall>)
    ensures closes == TeardownCloses(u)
  {
    closes := CloseConsumers(u.consumers);
    var producerCloses := CloseProducers(u.producers);
    closes := closes + producerCloses;
    if u.transport.Some? {
      closes := closes + [CloseTransport(u.transport.value.id)];
    }
  }

  /** `destroy`'s loop over the users. */
  method TeardownAll(users: seq<User>) returns (closes: seq<EngineCall>)
    ensures closes == DestroyCloses(users)
  {
    closes := [];
    for i := 0 to |users|
      invariant closes == DestroyCloses(users[..i])
    {
      assert users[..i + 1][..i] == users[..i];
      var userCloses := Teardown(users[i]);
      closes := closes + userCloses;
    }
    assert users[..|users|] == users;
  }

  /** `destroy`'s closes: every user's media, then the router and the worker. */
  method CloseAll(users: seq<User>, router: Option<Id>, worker: Option<Id>) returns (closes: seq<EngineCall>)
    ensures closes == DestroyCloses(users)
      + (if router.Some? then [CloseRouter(router.value)] else [])
      + (if worker.Some? then [CloseWorker(worker.value)] else [])
  {
    closes := TeardownAll(users);
    if router.Some? {
      closes := closes + [CloseRouter(router.value)];
    }
    if worker.Some? {
      closes := closes + [CloseWorker(worker.value)];
    }
  }

  /** The first record of connection `ws` (`users.find(user => user.socket === ws)`). */
  function UserOf(users: seq<User>, ws: Socket): (r: Option<User>)
    ensures r.Some? ==> r.value.socket == ws
  {
    match Find(users, OwnedBy(ws))
    case Some(i) => Some(users[i])
    case None => None
  }

  /** `ws` has a record exactly when some record is on `ws`, and the one found is a record of the room. */
  lemma UserOfSpec(users: seq<User>, ws: Socket)
    ensures UserOf(users, ws).Some? <==> exists i :: 0 <= i < |users| && users[i].socket == ws
    ensures UserOf(users, ws).Some? ==> UserOf(users, ws).value in users
  {
    FindSpec(users, OwnedBy(ws));
  }

  /** The transport of `ws`'s record, if both exist (`user?.transport || null`). */
  function TransportOf(users: seq<User>, ws: Socket): Option<Transport> {
    match UserOf(users, ws)
    case Some(u) => u.transport
    case None => None
  }

  /**
   * With one record per connection, the transport found is the one on
   * `ws`'s record; a connection without a record has none, and a transport
   * found is always on a record of `ws`.
   */
  lemma TransportOfSpec(users: seq<User>, ws: Socket)
    ensures UniqueSockets(users) ==>
              forall i | 0 <= i < |users| && users[i].socket == ws :: TransportOf(users, ws) == users[i].transport
    ensures (forall i | 0 <= i < |users| :: users[i].socket != ws) ==> TransportOf(users, ws).None?
    ensures TransportOf(users, ws).Some? ==>
              exists i :: 0 <= i < |users| && users[i].socket == ws && users[i].transport == TransportOf(users, ws)
  {
    FindSpec(users, OwnedBy(ws));
  }

  /** After a replacement the connection's record is the new one. */
  lemma ReplaceUserOf(users: seq<User>, u: User)
    requires UserOf(users, u.socket).Some?
    ensures UserOf(Replace(users, u), u.socket) == Some(u)
  {
    ReplaceFind(users, u);
  }

  /** Putting back a connection's own record changes nothing. */
  lemma ReplaceSelf(users: seq<User>, ws: Socket)
    requires UserOf(users, ws).Some?
    ensures Replace(users, UserOf(users, ws).value) == users
  {
    var i := Find(users, OwnedBy(ws)).value;
    assert users[i := users[i]] == users;
  }

  class Room {
    const roomId: RoomId
    var users: seq<User>
    var transports: seq<Transport>
    var producers: seq<ProducerEntry>
    var worker: Option<Id>
    var router: Option<Id>
    var message: seq<ChatMessage>
    var producerUserId: Option<UserId>
    var active: Activity
    var producerLeaveUnix: int
    /** `producerTimeout` is non-null. */
    var producerTimeout: bool
    /** The timer's callback is scheduled: it has neither run nor been cancelled. */
    var timerPending: bool

    ghost predicate Valid()
      reads this
    {
      UniqueSockets(users) && (timerPending ==> producerTimeout)
    }

    constructor (roomId: RoomId)
      ensures this.roomId == roomId && Valid()
      ensures users == [] && transports == [] && producers == [] && message == []
      ensures worker == None && router == None && producerUserId == None
      ensures active == Live && producerLeaveUnix == 0 && !producerTimeout && !timerPending
    {
      this.roomId := roomId;
      users, transports, producers, message := [], [], [], [];
      worker, router, producerUserId := None, None, None;
      active, producerLeaveUnix := Live, 0;
      producerTimeout, timerPending := false, false;
    }

    /** `initializeRouter`, given the worker and router the engine created. */
    method InitializeRouter(workerId: Id, routerId: Id)
      modifies this`worker, this`router
      ensures worker == Some(workerId) && router == Some(routerId)
    {
      worker := Some(workerId);
      router := Some(routerId);
    }

    /** `getUser(ws)`: the record of connection `ws`, if any. */
    function GetUser(ws: Socket): (r: Option<User>)
      reads this
      ensures r == UserOf(users, ws)
    {
      UserOf(users, ws)
    }

    /** `getTransport(ws)`: the transport of `ws`'s record, if both exist. */
    function GetTransport(ws: Socket): (r: Option<Transport>)
      reads this
      ensures r == TransportOf(users, ws)
    {
      TransportOf(users, ws)
    }

    method AddUser(ws: Socket)
      requires Valid()
      modifies this`users
      ensures Valid()
      ensures users == Admit(old(users), ws)
      ensures UserOf(users, ws) == if UserOf(old(users), ws).Some? then UserOf(old(users), ws) else Some(NewUser(ws))
    {
      AdmitKeepsUnique(users, ws);
      if Find(users, OwnedBy(ws)).None? {
        users := users + [NewUser(ws)];
        FindSpec(old(users), OwnedBy(ws));
        FindSpec(users, OwnedBy(ws));
        assert Find(users, OwnedBy(ws)) == Some(|users| - 1);
      }
    }

    method SetProducerId(id: Option<UserId>)
      modifies this`producerUserId
      ensures producerUserId == id
    {
      producerUserId := id;
    }

    /** Replaces the record of `u.socket` by `u` (the in-place field updates of the source). */
    method PutUser(u: User)
      requires Valid() && UserOf(users, u.socket).Some?
      modifies this`users
      ensures Valid()
      ensures users == Replace(old(users), u)
      ensures UserOf(users, u.socket) == Some(u)
    {
      ReplaceFind(users, u);
      users := Replace(users, u);
    }

    method AddListenProducersForConsumer(ws: Socket, producerId: Id)
      requires Valid()
      modifies this`users
      ensures Valid()
      ensures match UserOf(old(users), ws)
        case None => users == old(users)
        case Some(u) => users == Replace(old(users), u.(listenProducers := u.listenProducers + [producerId]))
      ensures UserOf(old(users), ws).Some? ==>
        UserOf(users, ws) == Some(UserOf(old(users), ws).value.(listenProducers := UserOf(old(users), ws).value.listenProducers + [producerId]))
    {
      var user := GetUser(ws);
      if user.Some? {
        var u := user.value;
        PutUser(u.(listenProducers := u.listenProducers + [producerId]));
      }
    }

    /** `createTransport(ws)` once the router has made transport `id` for `ws`. */
    method CreateTransport(ws: Socket, id: Id) returns (transport: Transport)
      requires Valid()
      modifies this`users, this`transports
      ensures Valid()
      ensures transport == Transport(id, ws, false)
      ensures transports == old(transports) + [transport]
      ensures match UserOf(old(users), ws)
        case None => users == old(users)
        case Some(u) => users == Replace(old(users), u.(transport := Some(transport)))
      ensures UserOf(old(users), ws).Some? ==> UserOf(users, ws) == Some(UserOf(old(users), ws).value.(transport := Some(transport)))
    {
      transport := Transport(id, ws, false);
      transports := transports + [transport];
      var user := GetUser(ws);
      if user.Some? {
        PutUser(user.value.(transport := Some(transport)));
      }
    }

    method SaveProducer(ws: Socket, producer: Producer)
      requires Valid()
      modifies this`users, this`producers
      ensures Valid()
      ensures producers == old(producers) + [ProducerEntry(ws, producer)]
      ensures match UserOf(old(users), ws)
        case None => users == old(users)
        case Some(u) => users == Replace(old(users), u.(producers := u.producers + [producer]))
      ensures UserOf(old(users), ws).Some? ==>
        UserOf(users, ws) == Some(UserOf(old(users), ws).value.(producers := UserOf(old(users), ws).value.producers + [producer]))
    {
      producers := producers + [ProducerEntry(ws, producer)];
      var user := GetUser(ws);
      if user.Some? {
        var u := user.value;
        PutUser(u.(producers := u.producers + [producer]));
      }
    }

    method AddConsumer(ws: Socket, consumer: Consumer)
      requires Valid()
      modifies this`users
      ensures Valid()
      ensures match UserOf(old(users), ws)
        case None => users == old(users)
        case Some(u) => users == Replace(old(users), u.(consumers := u.consumers + [consumer]))
      ensures UserOf(old(users), ws).Some? ==>
        UserOf(users, ws) == Some(UserOf(old(users), ws).value.(consumers := UserOf(old(users), ws).value.consumers + [consumer]))
    {
      var user := GetUser(ws);
      if user.Some? {
        var u := user.value;
        PutUser(u.(consumers := u.consumers + [consumer]));
      }
    }

    /** `setInfo(ws, type, userId)`. */
    method SetInfo(ws: Socket, role: string, userId: Option<UserId>)
      requires Valid()
      modifies this`users
      ensures Valid()
      ensures match UserOf(old(users), ws)
        case None => users == old(users)
        case Some(u) => users == Replace(old(users), u.(role := Some(role), userId := userId))
      ensures UserOf(old(users), ws).Some? ==> UserOf(users, ws) == Some(UserOf(old(users), ws).value.(role := Some(role), userId := userId))
    {
      var user := GetUser(ws);
      if user.Some? {
        PutUser(user.value.(role := Some(role), userId := userId));
      }
    }

    /** `setName(ws, name)`; the source dereferences the record without a check. */
    method SetName(ws: Socket, name: string)
      requires Valid() && UserOf(users, ws).Some?
      modifies this`users
      ensures Valid()
      ensures users == Replace(old(users), UserOf(old(users), ws).value.(name := name))
      ensures UserOf(users, ws) == Some(UserOf(old(users), ws).value.(name := name))
    {
      PutUser(GetUser(ws).value.(name := name));
    }

    method SetActiveRoom(state: Activity)
      modifies this`active
      ensures active == state
    {
      active := state;
    }

    /** `sendMessage(name, message)` at time `now`: appends and returns the chat entry. */
    method SendMessage(name: string, body: string, now: int) returns (data: ChatMessage)
      modifies this`message
      ensures data == ChatMessage(now, body, now, name)
      ensures message == old(message) + [data]
    {
      data := ChatMessage(now, body, now, name);
      message := message + [data];
    }

    /** `broadcast(msg, except)`: one send to each user whose connection is not `except`. */
    method Broadcast(msg: Message, except: Option<Socket>) returns (sent: seq<Envelope>)
      ensures sent == Fanout(users, msg, except)
    {
      sent := [];
      for i := 0 to |users|
        invariant sent == Fanout(users[..i], msg, except)
      {
        assert users[..i + 1][..i] == users[..i];
        if Some(users[i].socket) != except {
          sent := sent + [Envelope(users[i].socket, msg)];
        }
      }
      assert users[..|users|] == users;
    }

    /** `broadcastAll(msg)`: one send to every user. */
    method BroadcastAll(msg: Message) returns (sent: seq<Envelope>)
      ensures sent == Fanout(users, msg, None)
    {
      sent := [];
      for i := 0 to |users|
        invariant sent == Fanout(users[..i], msg, None)
      {
        assert users[..i + 1][..i] == users[..i];
        sent := sent + [Envelope(users[i].socket, msg)];
      }
      assert users[..|users|] == users;
    }

    /**
     * `removeUser(ws)` (the later of its two definitions): closes the user's
     * producers, consumers and transport, then drops every transport and
     * producer entry of `ws` and the record itself.
     */
    method RemoveUser(ws: Socket) returns (closes: seq<EngineCall>)
      requires Valid()
      modifies this`users, this`transports, this`producers
      ensures Valid()
      ensures UserOf(users, ws).None?
      ensures match UserOf(old(users), ws)
        case None =>
          && closes == []
          && users == old(users) && transports == old(transports) && producers == old(producers)
        case Some(u) =>
          && closes == RemovalCloses(u)
          && users == Filter(old(users), NotOwnedBy(ws))
          && transports == Filter(old(transports), TransportNotOn(ws))
          && producers == Filter(old(producers), EntryNotOn(ws))
    {
      closes := [];
      var found := GetUser(ws);
      if found.None? {
        return;
      }
      var user := found.value;
      closes := CloseProducers(user.producers);
      var consumerCloses := CloseConsumers(user.consumers);
      closes := closes + consumerCloses;
      if user.transport.Some? {
        closes := closes + [CloseTransport(user.transport.value.id)];
      }
      transports := Filter(transports, TransportNotOn(ws));
      producers := Filter(producers, EntryNotOn(ws));
      FilterKeepsUnique(users, NotOwnedBy(ws));
      FilterSpec(users, NotOwnedBy(ws));
      users := Filter(users, NotOwnedBy(ws));
      assert forall i :: 0 <= i < |users| ==> users[i].socket != ws;
    }

    /** `startProducerTimeout`: cancels a pending callback, if any, and schedules one. */
    method StartProducerTimeout()
      modifies this`producerTimeout, this`timerPending
      ensures producerTimeout && timerPending
    {
      producerTimeout, timerPending := true, true;
    }

    /** `clearProducerTimeout`: cancels the callback and clears the handle. */
    method ClearProducerTimeout()
      requires Valid()
      modifies this`producerTimeout, this`timerPending
      ensures Valid()
      ensures !producerTimeout && !timerPending
    {
      if producerTimeout {
        producerTimeout, timerPending := false, false;
      }
    }

    /**
     * `destroy`: closes every user's consumers, producers and transport, then
     * the router and the worker, and empties the room; chat history and
     * `active` are left as they are.
     */
    method Destroy() returns (closes: seq<EngineCall>)
      requires Valid()
      modifies this`users, this`transports, this`producers, this`router, this`worker
      modifies this`producerUserId, this`producerLeaveUnix, this`producerTimeout, this`timerPending
      ensures Valid()
      ensures closes == DestroyCloses(old(users))
        + (if old(router).Some? then [CloseRouter(old(router).value)] else [])
        + (if old(worker).Some? then [CloseWorker(old(worker).value)] else [])
      ensures users == [] && transports == [] && producers == []
      ensures router == None && worker == None && producerUserId == None
      ensures producerLeaveUnix == 0 && !producerTimeout && !timerPending
    {
      closes := CloseAll(users, router, worker);
      users, transports, producers, router, worker, producerUserId, producerLeaveUnix :=
        [], [], [], None, None, None, 0;
      ClearProducerTimeout();
    }
  }

  /** Dropping records never makes two of them share a connection. */
  lemma {:induction false} FilterKeepsUnique(users: seq<User>, p: User -> bool)
    requires UniqueSockets(users)
    ensures UniqueSockets(Filter(users, p))
  {
    if |users| > 0 {
      assert UniqueSockets(users[1..]);
      FilterKeepsUnique(users[1..], p);
      var rest := Filter(users[1..], p);
      FilterSpec(users[1..], p);
      forall k | 0 <= k < |rest| ensures rest[k].socket != users[0].socket {
        assert rest[k] in users[1..];
      }
    }
  }
}
