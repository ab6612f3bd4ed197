/** The real-time gateway of services/websocketService.ts. Each server
    instance keeps a registry from user id to that user's open connections;
    each connection carries the rooms it joined, a heartbeat flag and, here,
    the envelopes sent to it so far (its outbox). Room-wide events are not
    sent directly: they are published on a shared channel (Redis pub/sub),
    modelled as the FIFO queue `bus`, and a delivery step hands the oldest
    one to the local fan-out, broadcastToRoomLocal. */
module Gateway {
  import opened Common
  import opened Messaging

  /** A socket accepted by the server, named by a number. */
  type ConnId = nat

  /** The payload of an envelope the server sends or broadcasts. */
  datatype Payload =
    | ConnectedInfo(userId: UserId)
    | NoData
    | ErrorInfo(message: string)
    | RoomJoinedInfo(room: Room, messages: seq<Message>, unreadCount: nat)
    | RoomLeftInfo(leftRoomId: RoomId)
    | MarkedReadInfo(roomId: Option<RoomId>, sequenceId: Option<int>)
    | PresenceInfo(userId: UserId, status: string)
    | TypingInfo(userId: UserId, username: Option<string>, isTyping: Option<bool>)
    | MessageInfo(stored: Message)

  /** `{ type, payload }` as sent on the socket. */
  datatype Envelope = Envelope(kind: string, payload: Payload)

  /** A message published on the shared channel. */
  datatype Broadcast = Broadcast(roomId: RoomId, event: string, data: Payload, excludeUserId: Option<UserId>)

  /** One authenticated connection. `open` is false once the socket was
      terminated; `pings` counts heartbeat pings sent to it. */
  datatype Conn = Conn(
    userId: UserId,
    user: Claims,
    rooms: set<RoomId>,
    isAlive: bool,
    open: bool,
    outbox: seq<Envelope>,
    pings: nat)

  /** The fields a client may put in an envelope's payload; an absent field
      is None. */
  datatype ClientPayload = ClientPayload(
    roomId: Option<string>,
    targetUserId: Option<string>,
    content: Option<string>,
    kind: Option<string>,
    isTyping: Option<bool>,
    sequenceId: Option<int>)

  /** A frame received from a client: text that does not parse as an object
      with a `type`, or a parsed envelope whose payload may be missing. */
  datatype Inbound = Unparseable | Parsed(kind: string, payload: Option<ClientPayload>)

  /** How an upgrade request ends: registered, or closed with a code. */
  datatype ConnectOutcome = Accepted | Closed(code: int, reason: string)

  const AuthFailureCode: int := 4001
  /** Messages sent with the confirmation of joinRoom. */
  const JoinHistoryLimit: nat := 50

  const InvalidFormat: string := "Invalid message format"
  const RoomOrTargetRequired: string := "Either roomId or targetUserId required"
  const NotJoined: string := "Not joined to this room"

  /** The error text for a refused database write (the text of the
      database client's error is not modelled, only its cause). */
  function StoreErrorText(e: StoreError): (t: string)
    ensures t != InvalidFormat && t != NotJoined && t != RoomOrTargetRequired
  {
    match e
    case RoomNotFound => "Foreign key constraint failed on the field: roomId"
    case UserNotFound => "Foreign key constraint failed on the field: userId"
    case CallNotFound => "Foreign key constraint failed on the field: callId"
  }

  /** The text of the error a missing `content` raises in the database client. */
  const ContentMissing: string := "Argument content is missing"

  /** `send`: an envelope reaches only an open socket. */
  function Sent(conn: Conn, e: Envelope): (r: Conn)
    ensures r == conn.(outbox := r.outbox)
    ensures conn.open ==> r.outbox == conn.outbox + [e]
    ensures !conn.open ==> r.outbox == conn.outbox
  {
    if conn.open then conn.(outbox := conn.outbox + [e]) else conn
  }

  /** The presence notice published when a user joins, leaves or drops. */
  function Presence(roomId: RoomId, userId: UserId, status: string): Broadcast {
    Broadcast(roomId, "presenceUpdate", PresenceInfo(userId, status), Some(userId))
  }

  /** The fan-out condition of broadcastToRoomLocal, before `send` checks
      that the socket is open: the connection joined the room and its user
      is not the excluded one (an empty exclusion excludes nobody). */
  predicate Listens(conn: Conn, b: Broadcast) {
    b.roomId in conn.rooms && !(Truthy(b.excludeUserId) && conn.userId == b.excludeUserId.value)
  }

  /** The registry is consistent: every listed user has a connection, each
      listed connection is known and belongs to its user, and each known
      connection is listed under its user. */
  ghost predicate Registry(clients: map<UserId, set<ConnId>>, conns: map<ConnId, Conn>) {
    && (forall u :: u in clients ==> clients[u] != {})
    && (forall u, c :: u in clients && c in clients[u] ==> c in conns && conns[c].userId == u)
    && (forall c :: c in conns ==> conns[c].userId in clients && c in clients[conns[c].userId])
  }

  /** Changing connections in place, but not their owners, keeps the registry. */
  lemma RegistrySameOwners(clients: map<UserId, set<ConnId>>, conns: map<ConnId, Conn>, conns': map<ConnId, Conn>)
    requires Registry(clients, conns)
    requires conns'.Keys == conns.Keys
    requires forall c :: c in conns ==> conns'[c].userId == conns[c].userId
    ensures Registry(clients, conns')
  {
  }

  /** Registering connection c under user u. */
  function Listed(clients: map<UserId, set<ConnId>>, u: UserId, c: ConnId): (r: map<UserId, set<ConnId>>)
    ensures r.Keys == clients.Keys + {u}
    ensures c in r[u]
  {
    clients[u := (if u in clients then clients[u] else {}) + {c}]
  }

  /** A new connection, listed under its own user, keeps the registry. */
  lemma RegistryAdd(clients: map<UserId, set<ConnId>>, conns: map<ConnId, Conn>, c: ConnId, conn: Conn)
    requires Registry(clients, conns)
    requires c !in conns
    ensures Registry(Listed(clients, conn.userId, c), conns[c := conn])
  {
    var cl := Listed(clients, conn.userId, c);
    var cs := conns[c := conn];
    forall u, d | u in cl && d in cl[u] ensures d in cs && cs[d].userId == u {
      if d != c {
        assert u in clients && d in clients[u];
      }
    }
  }

  /** Unregistering connection c of user u: the user goes with their last
      connection. */
  function Unlisted(clients: map<UserId, set<ConnId>>, u: UserId, c: ConnId): (r: map<UserId, set<ConnId>>)
    requires u in clients
    ensures r.Keys == if clients[u] <= {c} then clients.Keys - {u} else clients.Keys
    ensures forall v :: v in r ==> r[v] == if v == u then clients[u] - {c} else clients[v]
  {
    if clients[u] - {c} == {} then clients - {u} else clients[u := clients[u] - {c}]
  }

  /** Dropping a connection from both tables keeps the registry. */
  lemma RegistryRemove(clients: map<UserId, set<ConnId>>, conns: map<ConnId, Conn>, c: ConnId)
    requires Registry(clients, conns)
    requires c in conns
    ensures Registry(Unlisted(clients, conns[c].userId, c), conns - {c})
  {
    var u := conns[c].userId;
    var cl := Unlisted(clients, u, c);
    var cs := conns - {c};
    forall v, d | v in cl && d in cl[v] ensures d in cs && cs[d].userId == v {
      assert v in clients && d in clients[v];
    }
    forall d | d in cs ensures cs[d].userId in cl && d in cl[cs[d].userId] {
      assert d in clients[conns[d].userId];
    }
  }

  /** The local fan-out of one broadcast, one connection at a time: every
      open connection that listens gets the envelope once, nothing else
      changes. */
  method DeliverLocal(conns: map<ConnId, Conn>, b: Broadcast) returns (r: map<ConnId, Conn>)
    ensures r.Keys == conns.Keys
    ensures forall c :: c in conns ==>
      && r[c] == conns[c].(outbox := r[c].outbox)
      && r[c].outbox == conns[c].outbox
           + (if conns[c].open && Listens(conns[c], b) then [Envelope(b.event, b.data)] else [])
  {
    r := conns;
    var rest := conns.Keys;
    while rest != {}
      invariant rest <= conns.Keys && r.Keys == conns.Keys
      invariant forall c :: c in conns && c in rest ==> r[c] == conns[c]
      invariant forall c :: c in conns && c !in rest ==>
        && r[c] == conns[c].(outbox := r[c].outbox)
        && r[c].outbox == conns[c].outbox
             + (if conns[c].open && Listens(conns[c], b) then [Envelope(b.event, b.data)] else [])
      decreases rest
    {
      var c :| c in rest;
      if Listens(r[c], b) {
        r := r[c := Sent(r[c], Envelope(b.event, b.data))];
      }
      rest := rest - {c};
    }
  }

  /** One heartbeat sweep: a connection that did not answer the last ping
      is terminated, every other one is marked as waiting and pinged. */
  method Sweep(conns: map<ConnId, Conn>) returns (r: map<ConnId, Conn>)
    ensures r.Keys == conns.Keys
    ensures forall c :: c in conns && !conns[c].isAlive ==> r[c] == conns[c].(open := false)
    ensures forall c :: c in conns && conns[c].isAlive ==>
      r[c] == conns[c].(isAlive := false, pings := conns[c].pings + 1)
  {
    r := conns;
    var rest := conns.Keys;
    while rest != {}
      invariant rest <= conns.Keys && r.Keys == conns.Keys
      invariant forall c :: c in conns && c in rest ==> r[c] == conns[c]
      invariant forall c :: c in conns && c !in rest && !conns[c].isAlive ==> r[c] == conns[c].(open := false)
      invariant forall c :: c in conns && c !in rest && conns[c].isAlive ==>
        r[c] == conns[c].(isAlive := false, pings := conns[c].pings + 1)
      decreases rest
    {
      var c :| c in rest;
      if !r[c].isAlive {
        r := r[c := r[c].(open := false)];
      } else {
        r := r[c := r[c].(isAlive := false, pings := r[c].pings + 1)];
      }
      rest := rest - {c};
    }
  }

  /** The room ids of a run of broadcasts. */
  function RoomsOfBroadcasts(bs: seq<Broadcast>): (r: set<RoomId>)
    ensures forall i :: 0 <= i < |bs| ==> bs[i].roomId in r
  {
    if bs == [] then {} else RoomsOfBroadcasts(bs[..|bs| - 1]) + {bs[|bs| - 1].roomId}
  }

  lemma {:induction false} RoomsOfBroadcastsMembers(bs: seq<Broadcast>, x: RoomId)
    requires x in RoomsOfBroadcasts(bs)
    ensures exists i :: 0 <= i < |bs| && bs[i].roomId == x
  {
    if bs[|bs| - 1].roomId != x {
      RoomsOfBroadcastsMembers(bs[..|bs| - 1], x);
      var i :| 0 <= i < |bs| - 1 && bs[..|bs| - 1][i].roomId == x;
      assert bs[i].roomId == x;
    }
  }

  /** The notices handleDisconnect publishes: one offline notice for each
      room the connection had joined, in some order, each room once. */
  method OfflineNotices(rooms: set<RoomId>, userId: UserId) returns (news: seq<Broadcast>)
    ensures |news| == |rooms|
    ensures RoomsOfBroadcasts(news) == rooms
    ensures forall i :: 0 <= i < |news| ==> news[i] == Presence(news[i].roomId, userId, "offline")
  {
    news := [];
    var rest := rooms;
    while rest != {}
      invariant rest <= rooms
      invariant |news| + |rest| == |rooms|
      invariant RoomsOfBroadcasts(news) == rooms - rest
      invariant forall i :: 0 <= i < |news| ==> news[i] == Presence(news[i].roomId, userId, "offline")
      decreases rest
    {
      var r :| r in rest;
      assert (news + [Presence(r, userId, "offline")])[..|news|] == news;
      news := news + [Presence(r, userId, "offline")];
      rest := rest - {r};
    }
  }

  /** The server of services/websocketService.ts on one instance, over the
      message store it persists to. */
  class WebSocketService {
    var clients: map<UserId, set<ConnId>>
    var conns: map<ConnId, Conn>
    var bus: seq<Broadcast>
    const store: MessageService

    ghost predicate Valid()
      reads this
    {
      Registry(clients, conns)
    }

    constructor(store: MessageService)
      ensures Valid()
      ensures this.store == store
      ensures clients == map[] && conns == map[] && bus == []
    {
      this.store := store;
      clients := map[];
      conns := map[];
      bus := [];
    }

    /** `send` to one registered connection. */
    method Reply(c: ConnId, e: Envelope)
      requires Valid()
      requires c in conns
      modifies this
      ensures Valid()
      ensures conns == old(conns)[c := Sent(old(conns)[c], e)]
      ensures clients == old(clients) && bus == old(bus)
    {
      conns := conns[c := Sent(conns[c], e)];
      RegistrySameOwners(clients, old(conns), conns);
    }

    /** handleConnection: a missing token or one that does not verify
        closes the socket with 4001 and registers nothing; a valid one
        registers the connection with no rooms, alive, under its user, and
        sends it `connected`. */
    method HandleConnection(c: ConnId, token: Option<string>, verify: string -> Option<Claims>)
      returns (outcome: ConnectOutcome)
      requires Valid()
      requires c !in conns
      modifies this
      ensures Valid()
      ensures bus == old(bus)
      ensures !Truthy(token) ==>
        outcome == Closed(AuthFailureCode, "Missing authentication token")
        && clients == old(clients) && conns == old(conns)
      ensures Truthy(token) && verify(token.value).None? ==>
        outcome == Closed(AuthFailureCode, "Invalid authentication token")
        && clients == old(clients) && conns == old(conns)
      ensures Truthy(token) && verify(token.value).Some? ==>
        var claims := verify(token.value).value;
        var u := claims.userId;
        && outcome == Accepted
        && conns == old(conns)[c := Conn(u, claims, {}, true, true, [Envelope("connected", ConnectedInfo(u))], 0)]
        && clients == Listed(old(clients), u, c)
    {
      if !Truthy(token) {
        return Closed(AuthFailureCode, "Missing authentication token");
      }
      var verified := verify(token.value);
      if verified.None? {
        return Closed(AuthFailureCode, "Invalid authentication token");
      }
      var claims := verified.value;
      var u := claims.userId;
      clients := Listed(clients, u, c);
      var conn := Conn(u, claims, {}, true, true, [], 0);
      assert [] + [Envelope("connected", ConnectedInfo(u))] == [Envelope("connected", ConnectedInfo(u))];
      conns := conns[c := Sent(conn, Envelope("connected", ConnectedInfo(u)))];
      RegistryAdd(old(clients), old(conns), c, conns[c]);
      outcome := Accepted;
    }

    /** handleMessage: dispatch on the envelope's type. A frame that does
        not parse, or a handled type without a payload, gets an error
        envelope; `ping` gets `pong`; an unknown type is only logged. The
        connection stays registered in every case. */
    method HandleMessage(c: ConnId, input: Inbound, now: nat)
      requires Valid() && store.Valid()
      requires c in conns
      modifies this, store
      ensures Valid() && store.Valid()
      ensures c in conns && clients == old(clients)
      ensures Malformed(input) ==>
        conns == old(conns)[c := Sent(old(conns)[c], Envelope("error", ErrorInfo(InvalidFormat)))]
        && bus == old(bus) && unchanged(store)
      ensures input.Parsed? && input.kind == "ping" ==>
        conns == old(conns)[c := Sent(old(conns)[c], Envelope("pong", NoData))]
        && bus == old(bus) && unchanged(store)
      ensures input.Parsed? && input.kind !in HandledKinds ==>
        conns == old(conns) && bus == old(bus) && unchanged(store)
      ensures input.Parsed? && input.payload.Some? ==>
        var p := input.payload.value;
        && (input.kind == "joinRoom" ==> JoinRoomAnswered(c, p))
        && (input.kind == "leaveRoom" ==> LeaveRoomAnswered(c, p))
        && (input.kind == "sendMessage" ==> SendMessageAnswered(c, p))
        && (input.kind == "typing" ==> TypingAnswered(c, p))
        && (input.kind == "markRead" ==> MarkReadAnswered(c, p))
    {
      if Malformed(input) {
        Reply(c, Envelope("error", ErrorInfo(InvalidFormat)));
        return;
      }
      var p := input.payload;
      match input.kind {
        case "joinRoom" => HandleJoinRoom(c, p.value, now);
        case "leaveRoom" => HandleLeaveRoom(c, p.value);
        case "sendMessage" => HandleSendMessage(c, p.value, now);
        case "typing" => HandleTyping(c, p.value);
        case "markRead" => HandleMarkRead(c, p.value);
        case "ping" =>
          Reply(c, Envelope("pong", NoData));
        case _ =>
      }
    }

    /** What handleJoinRoom leaves behind: without a target the error;
        otherwise the direct room joined and answered. */
    twostate predicate JoinRoomAnswered(c: ConnId, p: ClientPayload)
      reads this, store
    {
      && c in old(conns)
      && (JoinTarget(p).None? ==>
            conns == old(conns)[c := Sent(old(conns)[c], Envelope("error", ErrorInfo(RoomOrTargetRequired)))]
            && bus == old(bus) && unchanged(store))
      && (JoinTarget(p).Some? ==> JoinedDirect(old(conns), conns, old(bus), bus, old(store.rooms), store.rooms,
                                               old(store.messages), store.messages, store.users, c, JoinTarget(p).value))
    }

    /** handleJoinRoom: the room is the direct room of the caller and the
        payload's roomId, read as the other user's id, or else of the
        caller and targetUserId. On success the room is joined, the caller
        gets the room, its newest 50 messages and the caller's unread count,
        and an online notice is published excluding the caller. When the
        room can be neither found nor created the caller gets the error. */
    method HandleJoinRoom(c: ConnId, p: ClientPayload, now: nat)
      requires Valid() && store.Valid()
      requires c in conns
      modifies this, store
      ensures Valid() && store.Valid()
      ensures c in conns && clients == old(clients)
      ensures JoinRoomAnswered(c, p)
    {
      var target := JoinTarget(p);
      if target.None? {
        Reply(c, Envelope("error", ErrorInfo(RoomOrTargetRequired)));
        return;
      }
      JoinDirect(c, target.value);
    }

    /** The second half of handleJoinRoom, once the other user is known. */
    method JoinDirect(c: ConnId, other: UserId)
      requires Valid() && store.Valid()
      requires c in conns
      modifies this, store
      ensures Valid() && store.Valid()
      ensures c in conns && clients == old(clients)
      ensures JoinedDirect(old(conns), conns, old(bus), bus, old(store.rooms), store.rooms,
                           old(store.messages), store.messages, store.users, c, other)
    {
      var r := store.GetOrCreateDirectRoom(conns[c].userId, other);
      AnswerJoin(c, r, store.messages);
    }

    /** Joins and answers with the room the store found or created, or
        answers with the store's error. */
    method AnswerJoin(c: ConnId, r: Result<Room, StoreError>, ms: seq<Message>)
      requires Valid()
      requires c in conns
      modifies this
      ensures Valid()
      ensures c in conns && clients == old(clients)
      ensures var conn := old(conns)[c];
        && (r.Err? ==>
              conns == old(conns)[c := Sent(conn, Envelope("error", ErrorInfo(StoreErrorText(r.error))))]
              && bus == old(bus))
        && (r.Ok? ==>
              conns == old(conns)[c := Sent(conn.(rooms := conn.rooms + {r.value.id}), JoinReply(r.value, ms, conn.userId))]
              && bus == old(bus) + [Presence(r.value.id, conn.userId, "online")])
    {
      var conn := conns[c];
      if r.Err? {
        conns := conns[c := Sent(conn, Envelope("error", ErrorInfo(StoreErrorText(r.error))))];
      } else {
        var joined := conn.(rooms := conn.rooms + {r.value.id});
        conns := conns[c := Sent(joined, JoinReply(r.value, ms, conn.userId))];
        bus := bus + [Presence(r.value.id, conn.userId, "online")];
      }
      RegistrySameOwners(clients, old(conns), conns);
    }

    /** What handleLeaveRoom leaves behind: nothing unless the room was
        joined; then the room left, announced and acknowledged. The store
        is not touched. */
    twostate predicate LeaveRoomAnswered(c: ConnId, p: ClientPayload)
      reads this, store
    {
      && c in old(conns)
      && unchanged(store)
      && (!Joined(old(conns)[c], p.roomId) ==> conns == old(conns) && bus == old(bus))
      && (Joined(old(conns)[c], p.roomId) ==>
            var roomId := p.roomId.value;
            var conn := old(conns)[c];
            && conns == old(conns)[c := Sent(conn.(rooms := conn.rooms - {roomId}), Envelope("roomLeft", RoomLeftInfo(roomId)))]
            && bus == old(bus) + [Presence(roomId, conn.userId, "offline")])
    }

    /** handleLeaveRoom: silent unless the connection joined the room;
        then the room is left, an offline notice is published excluding
        the caller, and the caller gets `roomLeft`. */
    method HandleLeaveRoom(c: ConnId, p: ClientPayload)
      requires Valid()
      requires c in conns
      modifies this
      ensures Valid()
      ensures c in conns && clients == old(clients)
      ensures LeaveRoomAnswered(c, p)
    {
      if !Joined(conns[c], p.roomId) {
        return;
      }
      var roomId := p.roomId.value;
      var conn := conns[c].(rooms := conns[c].rooms - {roomId});
      bus := bus + [Presence(roomId, conn.userId, "offline")];
      conns := conns[c := Sent(conn, Envelope("roomLeft", RoomLeftInfo(roomId)))];
      RegistrySameOwners(clients, old(conns), conns);
    }

    /** What handleSendMessage leaves behind: the error when the room was
        not joined or the content is missing; otherwise the stored message
        published to the room, or the store's refusal. */
    twostate predicate SendMessageAnswered(c: ConnId, p: ClientPayload)
      reads this, store
    {
      && c in old(conns)
      && (!Joined(old(conns)[c], p.roomId) ==>
          conns == old(conns)[c := Sent(old(conns)[c], Envelope("error", ErrorInfo(NotJoined)))]
          && bus == old(bus) && unchanged(store))
      && (Joined(old(conns)[c], p.roomId) && p.content.None? ==>
          conns == old(conns)[c := Sent(old(conns)[c], Envelope("error", ErrorInfo(ContentMissing)))]
          && bus == old(bus) && unchanged(store))
      && (Joined(old(conns)[c], p.roomId) && p.content.Some? ==>
          var roomId := p.roomId.value;
          var u := old(conns)[c].userId;
          && (old(FindRoom(store.rooms, roomId)).None? ==>
                conns == old(conns)[c := Sent(old(conns)[c], Envelope("error", ErrorInfo(StoreErrorText(RoomNotFound))))]
                && bus == old(bus) && store.messages == old(store.messages))
          && (old(FindRoom(store.rooms, roomId)).Some? && u !in store.users ==>
                conns == old(conns)[c := Sent(old(conns)[c], Envelope("error", ErrorInfo(StoreErrorText(UserNotFound))))]
                && bus == old(bus) && store.messages == old(store.messages))
          && (old(FindRoom(store.rooms, roomId)).Some? && u in store.users ==>
                && |store.messages| == |old(store.messages)| + 1
                && var m := store.messages[|old(store.messages)|];
                  && m.roomId == roomId && m.senderId == u && m.content == p.content.value
                  && m.kind == (if p.kind.Some? then p.kind.value else "text")
                  && m.sequenceId == old(NextSequenceId(store.messages, roomId))
                  && conns == old(conns)
                  && bus == old(bus) + [Broadcast(roomId, "message", MessageInfo(m), None)]))
    }

    /** handleSendMessage: refused with an error unless the connection
        joined the room; otherwise the message is stored (type "text" when
        the client gives none) and published to the whole room, the sender
        included. A refused write sends the error and publishes nothing. */
    method HandleSendMessage(c: ConnId, p: ClientPayload, now: nat)
      requires Valid() && store.Valid()
      requires c in conns
      modifies this, store
      ensures Valid() && store.Valid()
      ensures c in conns && clients == old(clients)
      ensures SendMessageAnswered(c, p)
    {
      if !Joined(conns[c], p.roomId) {
        Reply(c, Envelope("error", ErrorInfo(NotJoined)));
        return;
      }
      if p.content.None? {
        Reply(c, Envelope("error", ErrorInfo(ContentMissing)));
        return;
      }
      var kind := if p.kind.Some? then p.kind.value else "text";
      var r := store.CreateMessage(p.roomId.value, conns[c].userId, p.content.value, kind, now);
      AnswerSend(c, p.roomId.value, r);
    }

    /** Publishes the stored message to its room, or answers with the
        store's error. */
    method AnswerSend(c: ConnId, roomId: RoomId, r: Result<Message, StoreError>)
      requires Valid()
      requires c in conns
      modifies this
      ensures Valid()
      ensures clients == old(clients)
      ensures r.Err? ==>
        conns == old(conns)[c := Sent(old(conns)[c], Envelope("error", ErrorInfo(StoreErrorText(r.error))))]
        && bus == old(bus)
      ensures r.Ok? ==> conns == old(conns) && bus == old(bus) + [Broadcast(roomId, "message", MessageInfo(r.value), None)]
    {
      if r.Err? {
        Reply(c, Envelope("error", ErrorInfo(StoreErrorText(r.error))));
      } else {
        bus := bus + [Broadcast(roomId, "message", MessageInfo(r.value), None)];
      }
    }

    /** What handleTyping leaves behind: nothing unless the room was
        joined; then one typing notice that excludes the typist. */
    twostate predicate TypingAnswered(c: ConnId, p: ClientPayload)
      reads this, store
    {
      && c in old(conns)
      && conns == old(conns) && unchanged(store)
      && (!Joined(old(conns)[c], p.roomId) ==> bus == old(bus))
      && (Joined(old(conns)[c], p.roomId) ==>
            var conn := old(conns)[c];
            bus == old(bus) + [Broadcast(p.roomId.value, "typing",
              TypingInfo(conn.userId, if Truthy(conn.user.email) then conn.user.email else conn.user.phoneNumber, p.isTyping),
              Some(conn.userId))])
    }

    /** handleTyping: silent unless the connection joined the room; then a
        typing notice naming the user by e-mail, or else phone number, is
        published excluding the typist. */
    method HandleTyping(c: ConnId, p: ClientPayload)
      requires Valid()
      requires c in conns
      modifies this
      ensures Valid()
      ensures clients == old(clients)
      ensures TypingAnswered(c, p)
    {
      if !Joined(conns[c], p.roomId) {
        return;
      }
      var conn := conns[c];
      var username := if Truthy(conn.user.email) then conn.user.email else conn.user.phoneNumber;
      bus := bus + [Broadcast(p.roomId.value, "typing", TypingInfo(conn.userId, username, p.isTyping), Some(conn.userId))];
    }

    /** What handleMarkRead leaves behind: the caller's messages marked
        read and the acknowledgement sent. */
    twostate predicate MarkReadAnswered(c: ConnId, p: ClientPayload)
      reads this, store
    {
      && c in old(conns)
      && bus == old(bus)
      && store.messages == MarkedRead(old(store.messages), p.roomId, old(conns)[c].userId, p.sequenceId)
      && store.rooms == old(store.rooms)
      && conns == old(conns)[c := Sent(old(conns)[c], Envelope("markedRead", MarkedReadInfo(p.roomId, p.sequenceId)))]
    }

    /** handleMarkRead: marks read without checking that the room was
        joined (an absent roomId or sequenceId constrains nothing), then
        acknowledges with `markedRead`. */
    method HandleMarkRead(c: ConnId, p: ClientPayload)
      requires Valid() && store.Valid()
      requires c in conns
      modifies this, store
      ensures Valid() && store.Valid()
      ensures clients == old(clients) && c in conns
      ensures MarkReadAnswered(c, p)
    {
      store.MarkMessagesAsRead(p.roomId, conns[c].userId, p.sequenceId);
      Reply(c, Envelope("markedRead", MarkedReadInfo(p.roomId, p.sequenceId)));
    }

    /** handleDisconnect: the connection leaves its user's set, the user
        leaves the registry with their last connection, and an offline
        notice is published for every room the connection had joined, even
        when the user is still connected elsewhere. */
    method HandleDisconnect(c: ConnId)
      requires Valid()
      requires c in conns
      modifies this
      ensures Valid()
      ensures conns == old(conns) - {c}
      ensures clients == Unlisted(old(clients), old(conns)[c].userId, c)
      ensures |bus| == |old(bus)| + |old(conns)[c].rooms|
      ensures bus[..|old(bus)|] == old(bus)
      ensures RoomsOfBroadcasts(bus[|old(bus)|..]) == old(conns)[c].rooms
      ensures forall i :: |old(bus)| <= i < |bus| ==> bus[i] == Presence(bus[i].roomId, old(conns)[c].userId, "offline")
    {
      var conn := conns[c];
      var u := conn.userId;
      clients := Unlisted(clients, u, c);
      conns := conns - {c};
      RegistryRemove(old(clients), old(conns), c);
      var news := OfflineNotices(conn.rooms, u);
      assert (bus + news)[..|bus|] == bus && (bus + news)[|bus|..] == news;
      bus := bus + news;
    }

    /** A pong marks the connection alive. */
    method HandlePong(c: ConnId)
      requires Valid()
      requires c in conns
      modifies this
      ensures Valid()
      ensures conns == old(conns)[c := old(conns)[c].(isAlive := true)]
      ensures clients == old(clients) && bus == old(bus)
    {
      conns := conns[c := conns[c].(isAlive := true)];
      RegistrySameOwners(clients, old(conns), conns);
    }

    /** One tick of the heartbeat. A terminated socket stays registered
        until its close event runs HandleDisconnect. */
    method Heartbeat()
      requires Valid()
      modifies this
      ensures Valid()
      ensures clients == old(clients) && bus == old(bus)
      ensures conns.Keys == old(conns).Keys
      ensures forall c :: c in old(conns) && !old(conns)[c].isAlive ==> conns[c] == old(conns)[c].(open := false)
      ensures forall c :: c in old(conns) && old(conns)[c].isAlive ==>
        conns[c] == old(conns)[c].(isAlive := false, pings := old(conns)[c].pings + 1)
    {
      conns := Sweep(conns);
      RegistrySameOwners(clients, old(conns), conns);
    }

    /** The channel hands this instance the oldest published broadcast,
        which goes to the local connections of its room. */
    method DeliverNext()
      requires Valid()
      modifies this
      ensures Valid()
      ensures clients == old(clients)
      ensures old(bus) == [] ==> bus == [] && conns == old(conns)
      ensures old(bus) != [] ==>
        var b := old(bus)[0];
        && bus == old(bus)[1..]
        && conns.Keys == old(conns).Keys
        && forall c :: c in old(conns) ==>
             conns[c] == old(conns)[c].(outbox := old(conns)[c].outbox
               + (if old(conns)[c].open && Listens(old(conns)[c], b) then [Envelope(b.event, b.data)] else []))
    {
      if bus == [] {
        return;
      }
      var b := bus[0];
      bus := bus[1..];
      conns := DeliverLocal(conns, b);
      RegistrySameOwners(clients, old(conns), conns);
    }

    /** getOnlineUsersInRoom: the users with a registered connection that
        joined the room. */
    method GetOnlineUsersInRoom(roomId: RoomId) returns (users: set<UserId>)
      requires Valid()
      ensures forall u :: u in users <==> exists c :: c in conns && conns[c].userId == u && roomId in conns[c].rooms
    {
      users := {};
      var rest := conns.Keys;
      while rest != {}
        invariant rest <= conns.Keys
        invariant forall u :: u in users <==>
          exists c :: c in conns && c !in rest && conns[c].userId == u && roomId in conns[c].rooms
        decreases rest
      {
        var c :| c in rest;
        if roomId in conns[c].rooms {
          users := users + {conns[c].userId};
        }
        rest := rest - {c};
      }
    }

    /** sendToUser: the envelope goes to every open connection of the user. */
    method SendToUser(userId: UserId, event: string, data: Payload)
      requires Valid()
      modifies this
      ensures Valid()
      ensures clients == old(clients) && bus == old(bus)
      ensures conns.Keys == old(conns).Keys
      ensures forall c :: c in old(conns) ==>
        conns[c] == if old(conns)[c].userId == userId then Sent(old(conns)[c], Envelope(event, data)) else old(conns)[c]
    {
      if userId !in clients {
        return;
      }
      var mine := clients[userId];
      var rest := mine;
      while rest != {}
        invariant rest <= mine
        invariant clients == old(clients) && bus == old(bus)
        invariant conns.Keys == old(conns).Keys
        invariant forall c :: c in old(conns) ==>
          conns[c] == if old(conns)[c].userId == userId && c !in rest then Sent(old(conns)[c], Envelope(event, data)) else old(conns)[c]
        decreases rest
      {
        var c :| c in rest;
        conns := conns[c := Sent(conns[c], Envelope(event, data))];
        rest := rest - {c};
      }
      RegistrySameOwners(clients, old(conns), conns);
    }
  }

  /** The outcome of joining the direct room of connection c's user and
      `other`, from (conns0, bus0, rooms0, ms0) to (conns1, bus1, rooms1,
      ms1): a room the store held is kept and the table is unchanged; with
      none, one room of the sorted pair is appended when both users exist,
      and nothing is written otherwise. When the store now holds the room,
      it was joined, answered and announced; otherwise the caller got the
      store's error. The messages are never changed. */
  ghost predicate JoinedDirect(conns0: map<ConnId, Conn>, conns1: map<ConnId, Conn>,
                               bus0: seq<Broadcast>, bus1: seq<Broadcast>,
                               rooms0: seq<Room>, rooms1: seq<Room>,
                               ms0: seq<Message>, ms1: seq<Message>, users: set<UserId>,
                               c: ConnId, other: UserId)
    requires c in conns0
  {
    var u := conns0[c].userId;
    && ms1 == ms0
    && (FindDirectRoom(rooms0, u, other).Some? ==> rooms1 == rooms0)
    && (FindDirectRoom(rooms0, u, other).None? && !(u in users && other in users) ==> rooms1 == rooms0)
    && (FindDirectRoom(rooms0, u, other).None? && u in users && other in users ==>
          && |rooms1| == |rooms0| + 1 && rooms1[..|rooms0|] == rooms0
          && var room := rooms1[|rooms0|];
          && room.id !in RoomIds(rooms0)
          && room.user1Id == Some(SortPair(u, other).0) && room.user2Id == Some(SortPair(u, other).1))
    && (FindDirectRoom(rooms1, u, other).Some? ==>
          var room := rooms1[FindDirectRoom(rooms1, u, other).value];
          && IsDirectBetween(room, u, other)
          && conns1 == conns0[c := Sent(conns0[c].(rooms := conns0[c].rooms + {room.id}), JoinReply(room, ms1, u))]
          && bus1 == bus0 + [Presence(room.id, u, "online")])
    && (FindDirectRoom(rooms1, u, other).None? ==>
          conns1 == conns0[c := Sent(conns0[c], Envelope("error", ErrorInfo(StoreErrorText(UserNotFound))))]
          && bus1 == bus0 && rooms1 == rooms0)
  }

  /** The other user of a joinRoom request: the roomId when truthy (read
      as a user id), else the targetUserId when truthy. */
  function JoinTarget(p: ClientPayload): (r: Option<UserId>)
    ensures r.None? <==> !Truthy(p.roomId) && !Truthy(p.targetUserId)
    ensures Truthy(p.roomId) ==> r == p.roomId
  {
    if Truthy(p.roomId) then p.roomId
    else if Truthy(p.targetUserId) then p.targetUserId
    else None
  }

  /** The `roomJoined` reply: the room, its newest messages in ascending
      order and the caller's unread count there. */
  function JoinReply(room: Room, ms: seq<Message>, userId: UserId): Envelope {
    Envelope("roomJoined", RoomJoinedInfo(room, History(ms, room.id, JoinHistoryLimit, None), UnreadCount(ms, room.id, userId)))
  }

  /** The payload types that reach a handler and so need a payload. */
  const HandledKinds: set<string> := {"joinRoom", "leaveRoom", "sendMessage", "typing", "markRead", "ping"}

  /** Input that ends in handleMessage's catch: text that does not parse,
      or a handled type whose handler destructures a missing payload. */
  predicate Malformed(input: Inbound) {
    input.Unparseable? || (input.kind in HandledKinds - {"ping"} && input.payload.None?)
  }

  /** `ws.rooms.has(roomId)`: an absent roomId is never joined. */
  predicate Joined(conn: Conn, roomId: Option<RoomId>) {
    roomId.Some? && roomId.value in conn.rooms
  }
}
