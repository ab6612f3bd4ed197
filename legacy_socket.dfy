/** The socket.io server of config/websocket.ts: a module-wide registry of
    online users (user id to socket id, in insertion order as a JavaScript
    Map iterates), the event handlers that update it, and the handlers
    that relay call, chat, gift and typing events to a user's room. What
    the server emits is recorded in order; delivering it is socket.io's
    business and not modelled. */
module LegacySocket {
  import opened Common

  /** Where an emission goes: every connected socket, or one room. */
  datatype Target = Everyone | Room(name: string)

  datatype Event =
    | UserOnline(userId: string)
    | UserOffline(userId: string)
    | CallIncoming(callId: string, callerId: string, channelName: string)
    | CallAccepted(callId: string, receiverId: string)
    | CallRejected(callId: string)
    | CallEnded(callId: string)
    | MessageReceive(senderId: string, message: string, timestamp: string)
    | GiftReceive(callId: string, giverId: string, giftType: string, diamondValue: int)
    | TypingUser(userId: string, isTyping: bool)

  datatype Emission = Emission(to: Target, event: Event)

  /** The room a registered user's socket joins. */
  function UserRoom(userId: string): string {
    "user:" + userId
  }

  /** The events a client sends that the server only relays. */
  datatype ClientEvent =
    | CallInitiate(callerId: string, receiverId: string, callId: string, channelName: string)
    | CallAccept(callId: string, callerId: string, receiverId: string)
    | CallReject(callId: string, callerId: string)
    | MessageSend(senderId: string, receiverId: string, message: string, timestamp: string)
    | GiftSend(callId: string, giverId: string, receiverId: string, giftType: string, diamondValue: int)
    | TypingStart(userId: string, receiverId: string)
    | TypingStop(userId: string, receiverId: string)

  /** The user a relayed event is addressed to. */
  function Addressee(e: ClientEvent): string {
    match e
    case CallInitiate(_, receiverId, _, _) => receiverId
    case CallAccept(_, callerId, _) => callerId
    case CallReject(_, callerId) => callerId
    case MessageSend(_, receiverId, _, _) => receiverId
    case GiftSend(_, _, receiverId, _, _) => receiverId
    case TypingStart(_, receiverId) => receiverId
    case TypingStop(_, receiverId) => receiverId
  }

  /** What the server emits for a relayed event: the payload the addressee
      is told, sent to the addressee's room. */
  function RelayOf(e: ClientEvent): (m: Emission)
    ensures m.to == Room(UserRoom(Addressee(e)))
    ensures e.TypingStart? || e.TypingStop? ==> m.event == TypingUser(e.userId, e.TypingStart?)
  {
    var event := match e
      case CallInitiate(callerId, _, callId, channelName) => CallIncoming(callId, callerId, channelName)
      case CallAccept(callId, _, receiverId) => CallAccepted(callId, receiverId)
      case CallReject(callId, _) => CallRejected(callId)
      case MessageSend(senderId, _, message, timestamp) => MessageReceive(senderId, message, timestamp)
      case GiftSend(callId, giverId, _, giftType, diamondValue) => GiftReceive(callId, giverId, giftType, diamondValue)
      case TypingStart(userId, _) => TypingUser(userId, true)
      case TypingStop(userId, _) => TypingUser(userId, false);
    Emission(Room(UserRoom(Addressee(e))), event)
  }

  /** The position, in the registry's order, of the first user registered
      on a socket. */
  function OnSocket(order: seq<string>, users: map<string, string>, socketId: string): (i: Option<nat>)
    ensures i.Some? ==> i.value < |order| && order[i.value] in users && users[order[i.value]] == socketId
    ensures i.Some? ==> forall k :: 0 <= k < i.value ==> order[k] !in users || users[order[k]] != socketId
    ensures i.None? ==> forall k :: 0 <= k < |order| ==> order[k] !in users || users[order[k]] != socketId
  {
    FirstIndex(order, (u: string) => u in users && users[u] == socketId)
  }

  /** The keys of the registry, in the order they were first set. */
  ghost predicate Ordered(order: seq<string>, keys: set<string>) {
    Distinct(order) && forall u :: u in keys <==> u in order
  }

  /** The key order after `set(userId, …)`: a new key goes last, an
      existing one keeps its place. */
  function KeysAfterSet(order: seq<string>, users: map<string, string>, userId: string): (order': seq<string>)
    requires Ordered(order, users.Keys)
    ensures Ordered(order', users.Keys + {userId})
    ensures userId in users ==> order' == order
  {
    if userId in users then order else order + [userId]
  }

  /** Dropping the i-th key keeps the order of the others. */
  lemma DeleteKeepsOrder(order: seq<string>, users: map<string, string>, i: nat)
    requires Ordered(order, users.Keys) && i < |order|
    ensures Ordered(order[..i] + order[i + 1..], (users - {order[i]}).Keys)
  {
    var order' := order[..i] + order[i + 1..];
    forall u ensures u in users - {order[i]} <==> u in order' {
      if u in order' {
        var k :| 0 <= k < |order'| && order'[k] == u;
        if k < i {
          assert order'[k] == order[k];
        } else {
          assert order'[k] == order[k + 1];
        }
      }
      if u in users - {order[i]} {
        var k :| 0 <= k < |order| && order[k] == u;
        if k < i {
          assert order'[k] == u;
        } else {
          assert order'[k - 1] == u;
        }
      }
    }
  }

  /** The rooms after a socket closes: socket.io takes it out of every room
      it joined before the 'disconnect' handler runs, and drops a room
      left empty. Every other membership stays. */
  function LeaveAll(rooms: map<string, set<string>>, socketId: string): (rooms': map<string, set<string>>)
    ensures forall r, s :: r in rooms' && s in rooms'[r] <==> r in rooms && s in rooms[r] && s != socketId
    ensures forall r :: r in rooms' ==> rooms'[r] != {}
  {
    var rooms' := map r | r in rooms && rooms[r] - {socketId} != {} :: rooms[r] - {socketId};
    assert forall r, s :: r in rooms && s in rooms[r] && s != socketId ==> s in rooms[r] - {socketId};
    rooms'
  }

  /** socket.io's join: the socket is in the room afterwards, the room
      exists, and every other membership is as it was. */
  function Join(rooms: map<string, set<string>>, room: string, socketId: string): (rooms': map<string, set<string>>)
    ensures rooms'.Keys == rooms.Keys + {room}
    ensures forall r, s :: r in rooms' && s in rooms'[r] <==> (r in rooms && s in rooms[r]) || (r == room && s == socketId)
  {
    rooms[room := (if room in rooms then rooms[room] else {}) + {socketId}]
  }

  /** Joining a room and then closing the socket leaves the memberships
      that closing alone leaves. */
  lemma JoinThenLeaveAll(rooms: map<string, set<string>>, room: string, socketId: string)
    ensures LeaveAll(Join(rooms, room, socketId), socketId) == LeaveAll(rooms, socketId)
  {
    var a := LeaveAll(Join(rooms, room, socketId), socketId);
    var b := LeaveAll(rooms, socketId);
    forall r | r in a ensures r in b && a[r] == b[r] {
      var x :| x in a[r];
      assert x in b[r];
    }
    forall r | r in b ensures r in a {
      var x :| x in b[r];
      assert x in a[r];
    }
  }

  /** A socket that has left every room is in none, so leaving again
      changes nothing more than dropping rooms already empty. */
  lemma LeaveAllAgain(rooms: map<string, set<string>>, socketId: string)
    ensures LeaveAll(LeaveAll(rooms, socketId), socketId) == LeaveAll(rooms, socketId)
  {
    var once := LeaveAll(rooms, socketId);
    var twice := LeaveAll(once, socketId);
    forall r | r in once ensures r in twice && twice[r] == once[r] {
      assert socketId !in once[r];
    }
  }

  class SocketServer {
    /** onlineUsers: user id to the socket id it registered from. */
    var onlineUsers: map<string, string>
    /** The Map's keys in insertion order. */
    var order: seq<string>
    /** The rooms sockets have joined: room name to socket ids. */
    var rooms: map<string, set<string>>
    /** Everything emitted so far, oldest first. */
    var emitted: seq<Emission>

    ghost predicate Valid()
      reads this
    {
      Ordered(order, onlineUsers.Keys)
    }

    constructor ()
      ensures Valid() && onlineUsers == map[] && order == [] && rooms == map[] && emitted == []
    {
      onlineUsers, order, rooms, emitted := map[], [], map[], [];
    }

    /** 'register': the user now maps to this socket, whatever it mapped
        to before; the socket joins the user's room; everyone hears that
        the user is online. */
    method Register(socketId: string, userId: string)
      requires Valid()
      modifies this
      ensures Valid()
      ensures onlineUsers == old(onlineUsers)[userId := socketId]
      ensures order == old(if userId in onlineUsers then order else order + [userId])
      ensures rooms == Join(old(rooms), UserRoom(userId), socketId)
      ensures emitted == old(emitted) + [Emission(Everyone, UserOnline(userId))]
    {
      order := KeysAfterSet(order, onlineUsers, userId);
      onlineUsers := onlineUsers[userId := socketId];
      rooms := Join(rooms, UserRoom(userId), socketId);
      emitted := emitted + [Emission(Everyone, UserOnline(userId))];
    }

    /** 'disconnect': the closing socket has left all its rooms; the
        handler walks the registry in order and removes the first user
        registered on that socket, telling everyone it went offline; with
        no such user the registry and the emissions do not change. */
    method Disconnect(socketId: string)
      requires Valid()
      modifies this
      ensures Valid()
      ensures rooms == LeaveAll(old(rooms), socketId)
      ensures OnSocket(old(order), old(onlineUsers), socketId).None? ==>
        onlineUsers == old(onlineUsers) && order == old(order) && emitted == old(emitted)
      ensures OnSocket(old(order), old(onlineUsers), socketId).Some? ==>
        var i := OnSocket(old(order), old(onlineUsers), socketId).value;
        && onlineUsers == old(onlineUsers) - {old(order)[i]}
        && order == old(order[..i] + order[i + 1..])
        && emitted == old(emitted) + [Emission(Everyone, UserOffline(old(order)[i]))]
    {
      rooms := LeaveAll(rooms, socketId);
      var i := 0;
      while i < |order|
        invariant 0 <= i <= |order|
        invariant onlineUsers == old(onlineUsers) && order == old(order) && emitted == old(emitted)
        invariant rooms == LeaveAll(old(rooms), socketId)
        invariant forall k :: 0 <= k < i ==> onlineUsers[order[k]] != socketId
      {
        var userId := order[i];
        if onlineUsers[userId] == socketId {
          DeleteKeepsOrder(order, onlineUsers, i);
          onlineUsers := onlineUsers - {userId};
          order := order[..i] + order[i + 1..];
          emitted := emitted + [Emission(Everyone, UserOffline(userId))];
          return;
        }
        i := i + 1;
      }
    }

    /** getOnlineUsers: the registry's keys, each once, in insertion order. */
    method GetOnlineUsers() returns (users: seq<string>)
      requires Valid()
      ensures Distinct(users)
      ensures forall u :: u in users <==> u in onlineUsers
    {
      users := order;
    }

    /** 'call:end': every listed participant's room is told the call ended,
        one emission per entry of the list, in its order; no list, no
        emission. */
    method CallEnd(callId: string, participants: Option<seq<string>>)
      modifies this
      ensures onlineUsers == old(onlineUsers) && order == old(order) && rooms == old(rooms)
      ensures participants.None? ==> emitted == old(emitted)
      ensures participants.Some? ==>
        && |emitted| == |old(emitted)| + |participants.value|
        && emitted[..|old(emitted)|] == old(emitted)
        && forall k :: 0 <= k < |participants.value| ==>
             emitted[|old(emitted)| + k] == Emission(Room(UserRoom(participants.value[k])), CallEnded(callId))
    {
      if participants.None? {
        return;
      }
      var list := participants.value;
      var i := 0;
      while i < |list|
        invariant 0 <= i <= |list|
        invariant onlineUsers == old(onlineUsers) && order == old(order) && rooms == old(rooms)
        invariant |emitted| == |old(emitted)| + i
        invariant emitted[..|old(emitted)|] == old(emitted)
        invariant forall k :: 0 <= k < i ==> emitted[|old(emitted)| + k] == Emission(Room(UserRoom(list[k])), CallEnded(callId))
      {
        emitted := emitted + [Emission(Room(UserRoom(list[i])), CallEnded(callId))];
        i := i + 1;
      }
    }

    /** The relaying handlers: one emission to the addressee's room and
        nothing else. */
    method Relay(e: ClientEvent)
      modifies this
      ensures onlineUsers == old(onlineUsers) && order == old(order) && rooms == old(rooms)
      ensures emitted == old(emitted) + [RelayOf(e)]
    {
      emitted := emitted + [RelayOf(e)];
    }
  }

  /** Registering a new user on a fresh socket and then closing that
      socket gives back the registry as it was. */
  lemma RegisterThenDisconnect(order: seq<string>, users: map<string, string>, userId: string, socketId: string)
    requires Ordered(order, users.Keys) && userId !in users
    requires forall u :: u in users ==> users[u] != socketId
    ensures var order' := KeysAfterSet(order, users, userId);
      var users' := users[userId := socketId];
      && OnSocket(order', users', socketId) == Some(|order|)
      && users' - {userId} == users
      && order'[..|order|] + order'[|order| + 1..] == order
  {
    var order' := order + [userId];
    var users' := users[userId := socketId];
    forall k | 0 <= k < |order| ensures order'[k] in users' && users'[order'[k]] != socketId {
      assert order'[k] == order[k] && order[k] in users;
    }
    OnSocketAt(order', users', socketId, |order|);
    assert order'[..|order|] == order;
    assert order'[|order| + 1..] == [];
  }

  /** The walk stops at the first registration on the socket. */
  lemma OnSocketAt(order: seq<string>, users: map<string, string>, socketId: string, i: nat)
    requires i < |order| && order[i] in users && users[order[i]] == socketId
    requires forall k :: 0 <= k < i ==> order[k] !in users || users[order[k]] != socketId
    ensures OnSocket(order, users, socketId) == Some(i)
  {
    var found := OnSocket(order, users, socketId);
    if found.Some? && found.value < i {
      assert false;
    }
  }

  /** A socket that registered under two user ids keeps the second one
      online after it closes: the walk stops at the first match. */
  lemma DisconnectLeavesSecondRegistration()
    ensures var order := ["a", "b"];
      var users := map["a" := "s1", "b" := "s1"];
      && OnSocket(order, users, "s1") == Some(0)
      && "b" in users - {"a"} && (users - {"a"})["b"] == "s1"
  {
    var users := map["a" := "s1", "b" := "s1"];
    assert ["a", "b"][0] == "a";
  }
}
