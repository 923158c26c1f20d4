/**
 * Outbound signalling messages: a `type` plus the fields of one reply or
 * broadcast, addressed to one connection.  `send(route, ws, response)` takes
 * the type from the route's second '/'-separated segment.
 */
module Protocol {
  import opened Wrappers
  import opened Media

  type RoomId = string
  type UserId = string

  /** One chat entry: `{timeunix, message, id, name}`, `id` being the timestamp too. */
  datatype ChatMessage = ChatMessage(timeunix: int, message: string, id: int, name: string)

  /** `{transportOptions, routerRtpCapabilities}`, with handles standing for parameters. */
  datatype UserResponse = UserResponse(transportId: Id, routerId: Id)

  /** The fields of a message besides `type`. */
  datatype Payload =
    | NoFields
    | Text(message: string)
    | RoomCreated(roomId: RoomId, res: Option<UserResponse>)
    | ProducerCreated(producerId: Id, role: string, roomId: RoomId, appointment: string)
    | ProduceInfo(producerId: Id)
    | RoomStatus(isExist: bool, recconect: bool)
    | ConsumerCreated(consumerId: Id, producerId: Id, kind: string, appointment: string)
    | JoinedRoom(joined: UserResponse)
    | MuteState(mute: bool)
    | UpdateChat(newMess: ChatMessage)
    | StartRecconect(tracksType: seq<string>, res: Option<UserResponse>)

  /**
   * `{type, ...payload}`: `send(route, ...)` takes the type from its route,
   * while direct sends and broadcasts write it literally (`{type: 'sleep'}`).
   */
  datatype Message =
    | Routed(route: string, payload: Payload)
    | Typed(kind: string, payload: Payload)

  datatype Envelope = Envelope(to: Socket, msg: Message)

  /** The `type` field on the wire; `None` stands for an absent one. */
  function WireType(m: Message): Option<string> {
    match m
    case Routed(route, _) => RouteType(route)
    case Typed(kind, _) => Some(kind)
  }

  /** What `send(route, ws, payload)` writes to `ws`. */
  function Reply(route: string, ws: Socket, payload: Payload): Envelope {
    Envelope(ws, Routed(route, payload))
  }

  /** `route.split('/')[1]`, `None` standing for `undefined`. */
  function RouteType(route: string): (t: Option<string>)
    ensures t.Some? ==> '/' !in t.value
  {
    var parts := Split(route, '/');
    if |parts| > 1 then Some(parts[1]) else None
  }

  /** `String.prototype.split` with a one-character separator. */
  function Split(s: string, sep: char): (parts: seq<string>)
    ensures |parts| >= 1
    ensures forall i :: 0 <= i < |parts| ==> sep !in parts[i]
    ensures Join(parts, sep) == s
  {
    if |s| == 0 then [""]
    else
      var rest := Split(s[1..], sep);
      if s[0] == sep then
        assert [sep] + Join(rest, sep) == s;
        [""] + rest
      else
        JoinCons(s[0], rest, sep);
        [[s[0]] + rest[0]] + rest[1..]
  }

  /** `Array.prototype.join` with a one-character separator. */
  function Join(parts: seq<string>, sep: char): string
    requires |parts| >= 1
  {
    if |parts| == 1 then parts[0] else parts[0] + [sep] + Join(parts[1..], sep)
  }

  lemma JoinCons(c: char, parts: seq<string>, sep: char)
    requires |parts| >= 1
    ensures Join([[c] + parts[0]] + parts[1..], sep) == [c] + Join(parts, sep)
  {
    var q := [[c] + parts[0]] + parts[1..];
    assert q[1..] == parts[1..];
  }

  /** Splitting a text with no separator in it yields the text itself. */
  lemma {:induction false} SplitNoSeparator(a: string, sep: char)
    requires sep !in a
    ensures Split(a, sep) == [a]
  {
    if |a| > 0 {
      SplitNoSeparator(a[1..], sep);
      assert [a[0]] + a[1..] == a;
    }
  }

  /** Splitting stops at the first separator. */
  lemma {:induction false} SplitAtFirst(a: string, b: string, sep: char)
    requires sep !in a
    ensures Split(a + [sep] + b, sep) == [a] + Split(b, sep)
  {
    var s := a + [sep] + b;
    if |a| == 0 {
      assert s[0] == sep && s[1..] == b;
    } else {
      assert s[0] == a[0] && s[1..] == a[1..] + [sep] + b;
      SplitAtFirst(a[1..], b, sep);
      assert [a[0]] + a[1..] == a;
    }
  }

  /** The other half of the round trip: joining parts free of the separator and splitting gives them back. */
  lemma {:induction false} SplitJoin(parts: seq<string>, sep: char)
    requires |parts| >= 1
    requires forall i :: 0 <= i < |parts| ==> sep !in parts[i]
    ensures Split(Join(parts, sep), sep) == parts
  {
    if |parts| == 1 {
      SplitNoSeparator(parts[0], sep);
    } else {
      SplitJoin(parts[1..], sep);
      SplitAtFirst(parts[0], Join(parts[1..], sep), sep);
      assert [parts[0]] + parts[1..] == parts;
    }
  }

  /** Every route the core sends on has the form "/name": its type is "name". */
  lemma RouteTypeOfSlashName(name: string)
    requires '/' !in name
    ensures RouteType("/" + name) == Some(name)
  {
    SplitJoin(["", name], '/');
    assert Join(["", name], '/') == "/" + name;
  }

  /** `send('/name', ...)` and a literal `{type: 'name'}` put the same type on the wire. */
  lemma ReplyIsTyped(name: string, ws: Socket, payload: Payload)
    requires '/' !in name
    ensures WireType(Reply("/" + name, ws, payload).msg) == WireType(Typed(name, payload))
  {
    RouteTypeOfSlashName(name);
  }

  /** A route without '/' gives no type at all. */
  lemma RouteTypeWithoutSlash(route: string)
    requires '/' !in route
    ensures RouteType(route) == None
  {
    SplitNoSeparator(route, '/');
  }
}
