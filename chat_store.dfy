/** The mobile app's chat state (mobile store/chatStore.ts): the room list,
    the loaded messages per room, the room on screen, and who is typing or
    online per room, kept in step with the gateway through the client
    socket and with the HTTP chat routes. An HTTP call is recorded as the
    request it makes, and its answer (or failure) is a parameter. */
module ChatStore {
  import opened Common
  import opened Messaging
  import Gateway
  import ClientSocket

  /** A room as the app holds it: the server's room list entry with the
      room's columns spread into it. Timestamps are milliseconds. */
  datatype ClientRoom = ClientRoom(
    id: RoomId,
    kind: RoomType,
    lastMessageAt: Option<nat>,
    lastMessageText: Option<string>,
    unreadCount: Option<int>)

  /** The HTTP requests of the chat service (mobile services/chatService.ts). */
  datatype Request =
    | GetRoomsRequest
    | GetMessagesRequest(roomId: RoomId, limit: nat, before: Option<int>)
    | MarkAsReadRequest(roomId: RoomId, sequenceId: int)
    | CreateDirectRequest(targetUserId: UserId)

  /** The data of a `typing` or `presenceUpdate` event as the handlers read
      it; roomId is absent when the event has no such field. */
  datatype TypingEvent = TypingEvent(userId: UserId, roomId: Option<RoomId>, isTyping: bool)
  datatype PresenceEvent = PresenceEvent(userId: UserId, roomId: Option<RoomId>, status: string)

  /** loadMessages' page size when none is given; loadMoreMessages' page. */
  const DefaultPage: nat := 50
  const OlderPage: nat := 50

  /** The subscribers initialize registers on the socket. The source
      registers a new `connected` closure on each call; one id stands for
      them all, since every one only sets isConnected. */
  const NewMessageHandler: ClientSocket.HandlerId := "handleNewMessage"
  const TypingHandler: ClientSocket.HandlerId := "handleTyping"
  const PresenceHandler: ClientSocket.HandlerId := "handlePresenceUpdate"
  const ConnectedHandler: ClientSocket.HandlerId := "onConnected"

  // ---------------------------------------------------------------------
  // The room list

  /** `new Date(room.lastMessageAt || 0).getTime()`. */
  function Time(r: ClientRoom): int {
    if r.lastMessageAt.Some? then r.lastMessageAt.value else 0
  }

  /** A room list entry of GET /chat/rooms as the app receives it. */
  function OnClient(s: RoomSummary): ClientRoom {
    ClientRoom(s.room.id, s.room.kind, s.room.lastMessageAt, s.room.lastMessageText, Some(s.unreadCount))
  }

  function AllOnClient(ss: seq<RoomSummary>): (r: seq<ClientRoom>)
    ensures |r| == |ss|
  {
    seq(|ss|, k requires 0 <= k < |ss| => OnClient(ss[k]))
  }

  /** The server sends the room list already in the order the app keeps:
      newest activity first. */
  lemma {:induction false} ServerOrderIsClientOrder(rooms: seq<Room>, ms: seq<Message>, userId: UserId)
    ensures SortedDesc(AllOnClient(UserRooms(rooms, ms, userId)), Time)
  {
    var ss := UserRooms(rooms, ms, userId);
    var cs := AllOnClient(ss);
    forall i, j | 0 <= i < j < |cs| ensures Time(cs[i]) >= Time(cs[j]) {
      assert RecencyKey(ss[i].room) >= RecencyKey(ss[j].room);
      assert cs[i] == OnClient(ss[i]) && cs[j] == OnClient(ss[j]);
    }
  }

  /** The first room with the id, as `rooms.find(r => r.id === id)`. */
  function RoomIndex(rooms: seq<ClientRoom>, roomId: RoomId): (r: Option<nat>)
    ensures r.Some? ==> r.value < |rooms| && rooms[r.value].id == roomId
    ensures r.Some? ==> forall k :: 0 <= k < r.value ==> rooms[k].id != roomId
    ensures r.None? ==> forall k :: 0 <= k < |rooms| ==> rooms[k].id != roomId
  {
    if rooms == [] then None
    else if rooms[0].id == roomId then Some(0)
    else match RoomIndex(rooms[1..], roomId)
      case None => None
      case Some(i) => Some(i + 1)
  }

  /** Two lists with the same ids position by position find a room at the
      same place. */
  lemma {:induction false} RoomIndexByIds(a: seq<ClientRoom>, b: seq<ClientRoom>, roomId: RoomId)
    requires |a| == |b|
    requires forall k :: 0 <= k < |a| ==> a[k].id == b[k].id
    ensures RoomIndex(a, roomId) == RoomIndex(b, roomId)
  {
    if a != [] && a[0].id != roomId {
      RoomIndexByIds(a[1..], b[1..], roomId);
    }
  }

  /** `room.unreadCount || 0`. */
  function UnreadOrZero(r: ClientRoom): int {
    if r.unreadCount.Some? then r.unreadCount.value else 0
  }

  /** handleNewMessage's update of one room: the message becomes its last
      one, and its unread count is cleared when it is the room on screen,
      else counts one more. */
  function Touch(r: ClientRoom, m: Message, current: Option<RoomId>): ClientRoom {
    if r.id == m.roomId then
      r.(lastMessageAt := Some(m.createdAt),
         lastMessageText := Some(m.content),
         unreadCount := Some(if current == Some(m.roomId) then 0 else UnreadOrZero(r) + 1))
    else r
  }

  function Touched(rooms: seq<ClientRoom>, m: Message, current: Option<RoomId>): (r: seq<ClientRoom>)
    ensures |r| == |rooms|
  {
    seq(|rooms|, k requires 0 <= k < |rooms| => Touch(rooms[k], m, current))
  }

  /** The room list after handleNewMessage: touched, then stably sorted by
      last activity, newest first (a room without one counts as time 0). */
  function Resorted(rooms: seq<ClientRoom>, m: Message, current: Option<RoomId>): (r: seq<ClientRoom>)
    ensures |r| == |rooms|
  {
    SortDescBy(Touched(rooms, m, current), Time)
  }

  /** The new list is ordered by activity and holds exactly the touched
      rooms. */
  lemma {:induction false} ResortedOrderAndRooms(rooms: seq<ClientRoom>, m: Message, current: Option<RoomId>)
    ensures SortedDesc(Resorted(rooms, m, current), Time)
    ensures multiset(Resorted(rooms, m, current)) == multiset(Touched(rooms, m, current))
  {
    SortDescBySorted(Touched(rooms, m, current), Time);
    SortDescByPermutes(Touched(rooms, m, current), Time);
  }

  /** Every room of the message's room id in the new list carries the
      message as its last one; with the room on screen its unread count is
      zero. */
  lemma {:induction false} ResortedCarriesMessage(rooms: seq<ClientRoom>, m: Message, current: Option<RoomId>)
    ensures forall x :: x in Resorted(rooms, m, current) && x.id == m.roomId ==>
      && x.lastMessageAt == Some(m.createdAt)
      && x.lastMessageText == Some(m.content)
      && (current == Some(m.roomId) ==> x.unreadCount == Some(0))
  {
    var t := Touched(rooms, m, current);
    ResortedOrderAndRooms(rooms, m, current);
    forall x | x in Resorted(rooms, m, current) && x.id == m.roomId
      ensures x.lastMessageAt == Some(m.createdAt) && x.lastMessageText == Some(m.content)
      ensures current == Some(m.roomId) ==> x.unreadCount == Some(0)
    {
      assert x in multiset(t);
      var k :| 0 <= k < |t| && t[k] == x;
      assert t[k] == Touch(rooms[k], m, current);
    }
  }

  /** A message newer than every other room's activity puts its room at
      the top of the list. */
  lemma {:induction false} NewestRoomFirst(rooms: seq<ClientRoom>, m: Message, current: Option<RoomId>)
    requires RoomIndex(rooms, m.roomId).Some?
    requires forall k :: 0 <= k < |rooms| && rooms[k].id != m.roomId ==> Time(rooms[k]) < m.createdAt
    ensures |Resorted(rooms, m, current)| > 0
    ensures Resorted(rooms, m, current)[0].id == m.roomId
  {
    var t := Touched(rooms, m, current);
    var r := Resorted(rooms, m, current);
    var j := RoomIndex(rooms, m.roomId).value;
    ResortedOrderAndRooms(rooms, m, current);
    assert t[j] == Touch(rooms[j], m, current);
    assert Time(t[j]) == m.createdAt;
    assert t[j] in multiset(r);
    var i :| 0 <= i < |r| && r[i] == t[j];
    assert Time(r[0]) >= m.createdAt;
    assert r[0] in multiset(t);
    var q :| 0 <= q < |t| && t[q] == r[0];
    assert t[q] == Touch(rooms[q], m, current);
  }

  // ---------------------------------------------------------------------
  // Messages per room

  function MessagesOf(messages: map<RoomId, seq<Message>>, roomId: RoomId): seq<Message> {
    if roomId in messages then messages[roomId] else []
  }

  predicate HasId(list: seq<Message>, id: MessageId) {
    exists k :: 0 <= k < |list| && list[k].id == id
  }

  /** handleNewMessage's update of the messages: appended to its room's
      list unless a message with its id is already there. */
  function WithMessage(messages: map<RoomId, seq<Message>>, m: Message): map<RoomId, seq<Message>> {
    var list := MessagesOf(messages, m.roomId);
    if HasId(list, m.id) then messages else messages[m.roomId := list + [m]]
  }

  /** A delivered message is held once: delivering it again changes
      nothing, and no other room's list changes. */
  lemma {:induction false} WithMessageOnce(messages: map<RoomId, seq<Message>>, m: Message)
    ensures HasId(MessagesOf(WithMessage(messages, m), m.roomId), m.id)
    ensures WithMessage(WithMessage(messages, m), m) == WithMessage(messages, m)
    ensures forall r :: r != m.roomId ==> MessagesOf(WithMessage(messages, m), r) == MessagesOf(messages, r)
  {
    var list := MessagesOf(messages, m.roomId);
    if !HasId(list, m.id) {
      var l2 := list + [m];
      assert l2[|list|].id == m.id;
    }
  }

  predicate UniqueIds(list: seq<Message>) {
    forall i, j :: 0 <= i < j < |list| ==> list[i].id != list[j].id
  }

  /** Deduplication keeps a list free of repeated ids. */
  lemma {:induction false} WithMessageKeepsUnique(messages: map<RoomId, seq<Message>>, m: Message, roomId: RoomId)
    requires UniqueIds(MessagesOf(messages, roomId))
    ensures UniqueIds(MessagesOf(WithMessage(messages, m), roomId))
  {
    var list := MessagesOf(messages, m.roomId);
    if roomId == m.roomId && !HasId(list, m.id) {
      var l2 := list + [m];
      assert MessagesOf(WithMessage(messages, m), roomId) == l2;
      forall i, j | 0 <= i < j < |l2| ensures l2[i].id != l2[j].id {
        if j == |list| {
          assert l2[i] == list[i];
        }
      }
    }
  }

  /** The request loadMoreMessages makes: the older page before the first
      loaded message; the chat service leaves out a falsy cursor. */
  function OlderRequest(roomId: RoomId, first: Message): Request {
    GetMessagesRequest(roomId, OlderPage, if first.sequenceId != 0 then Some(first.sequenceId) else None)
  }

  /** The page the server answers that request with lies in the room and
      strictly before the first loaded message. */
  lemma {:induction false} OlderPageIsOlder(ms: seq<Message>, roomId: RoomId, first: Message)
    requires first.sequenceId != 0
    ensures var page := History(ms, roomId, OlderPage, OlderRequest(roomId, first).before);
      forall k :: 0 <= k < |page| ==> page[k].roomId == roomId && page[k].sequenceId < first.sequenceId
  {
    HistoryMatches(ms, roomId, OlderPage, Some(first.sequenceId));
  }

  // ---------------------------------------------------------------------
  // Read state

  /** markAsRead's update after the server accepted it: every room with
      the id shows no unread message. */
  function ZeroUnread(rooms: seq<ClientRoom>, roomId: RoomId): (r: seq<ClientRoom>)
    ensures |r| == |rooms|
  {
    seq(|rooms|, k requires 0 <= k < |rooms| => if rooms[k].id == roomId then rooms[k].(unreadCount := Some(0)) else rooms[k])
  }

  /** markAsRead's early exit: the listed room already shows zero unread
      (an absent count is not zero). */
  predicate AlreadyRead(rooms: seq<ClientRoom>, roomId: RoomId) {
    var i := RoomIndex(rooms, roomId);
    i.Some? && rooms[i.value].unreadCount == Some(0)
  }

  /** After a successful markAsRead of a listed room, the next one for the
      room makes no request; the other rooms are untouched. */
  lemma {:induction false} ZeroUnreadSettles(rooms: seq<ClientRoom>, roomId: RoomId)
    requires RoomIndex(rooms, roomId).Some?
    ensures AlreadyRead(ZeroUnread(rooms, roomId), roomId)
    ensures forall k :: 0 <= k < |rooms| && rooms[k].id != roomId ==> ZeroUnread(rooms, roomId)[k] == rooms[k]
  {
    RoomIndexByIds(rooms, ZeroUnread(rooms, roomId), roomId);
  }

  /** createDirectRoom's update of the list: the room goes in front unless
      a room with its id is listed. */
  function WithRoom(rooms: seq<ClientRoom>, room: ClientRoom): seq<ClientRoom> {
    if RoomIndex(rooms, room.id).Some? then rooms else [room] + rooms
  }

  /** Opening the same direct room twice lists it once. */
  lemma {:induction false} WithRoomOnce(rooms: seq<ClientRoom>, room: ClientRoom)
    ensures RoomIndex(WithRoom(rooms, room), room.id).Some?
    ensures WithRoom(WithRoom(rooms, room), room) == WithRoom(rooms, room)
  {
    if RoomIndex(rooms, room.id).None? {
      assert ([room] + rooms)[0].id == room.id;
    }
  }

  // ---------------------------------------------------------------------
  // Typing and presence

  function UsersIn(m: map<RoomId, set<UserId>>, roomId: RoomId): set<UserId> {
    if roomId in m then m[roomId] else {}
  }

  /** handleTyping: ignored without a room; otherwise the user is added to
      or removed from the room's typists. */
  function Typed(typing: map<RoomId, set<UserId>>, e: TypingEvent): (r: map<RoomId, set<UserId>>)
    ensures !Truthy(e.roomId) ==> r == typing
    ensures Truthy(e.roomId) ==>
      UsersIn(r, e.roomId.value) == if e.isTyping then UsersIn(typing, e.roomId.value) + {e.userId}
                                    else UsersIn(typing, e.roomId.value) - {e.userId}
    ensures forall x :: x != e.roomId ==> x.Some? ==> UsersIn(r, x.value) == UsersIn(typing, x.value)
  {
    if !Truthy(e.roomId) then typing
    else
      var users := UsersIn(typing, e.roomId.value);
      typing[e.roomId.value := if e.isTyping then users + {e.userId} else users - {e.userId}]
  }

  /** The 3-second timer started by a typing event: the user leaves the
      room's typists. */
  function TypingExpired(typing: map<RoomId, set<UserId>>, roomId: RoomId, userId: UserId): (r: map<RoomId, set<UserId>>)
    ensures userId !in UsersIn(r, roomId)
    ensures forall x :: x != roomId ==> UsersIn(r, x) == UsersIn(typing, x)
  {
    if roomId in typing then typing[roomId := typing[roomId] - {userId}] else typing
  }

  /** handlePresenceUpdate: ignored without a room; "online" adds the
      user to the room's online set, any other status removes them. */
  function Presence(online: map<RoomId, set<UserId>>, e: PresenceEvent): (r: map<RoomId, set<UserId>>)
    ensures !Truthy(e.roomId) ==> r == online
    ensures Truthy(e.roomId) ==>
      (e.userId in UsersIn(r, e.roomId.value) <==> e.status == "online")
  {
    if !Truthy(e.roomId) then online
    else
      var users := UsersIn(online, e.roomId.value);
      online[e.roomId.value := if e.status == "online" then users + {e.userId} else users - {e.userId}]
  }

  /** The fields the typing handler reads from an event's payload. Only
      a payload carrying a roomId field supplies one. */
  function TypingEventOf(p: Gateway.Payload): TypingEvent
    requires p.TypingInfo?
  {
    TypingEvent(p.userId, None, p.isTyping == Some(true))
  }

  function PresenceEventOf(p: Gateway.Payload): PresenceEvent
    requires p.PresenceInfo?
  {
    PresenceEvent(p.userId, None, p.status)
  }

  /** The gateway's typing and presence notices name no room, so the
      store ignores every one of them: no typist or online user is ever
      recorded from the gateway. */
  lemma {:induction false} GatewayNoticesIgnored(typing: map<RoomId, set<UserId>>, online: map<RoomId, set<UserId>>,
                                                 b: Gateway.Broadcast)
    requires b.data.TypingInfo? || b.data.PresenceInfo?
    ensures b.data.TypingInfo? ==> Typed(typing, TypingEventOf(b.data)) == typing
    ensures b.data.PresenceInfo? ==> Presence(online, PresenceEventOf(b.data)) == online
  {
  }

  // ---------------------------------------------------------------------
  // The store

  /** initialize's subscriptions. */
  function WithChatHandlers(hs: map<string, set<ClientSocket.HandlerId>>): map<string, set<ClientSocket.HandlerId>> {
    ClientSocket.Subscribed(ClientSocket.Subscribed(ClientSocket.Subscribed(ClientSocket.Subscribed(hs,
      "message", NewMessageHandler), "typing", TypingHandler), "presenceUpdate", PresenceHandler),
      "connected", ConnectedHandler)
  }

  /** Whether initialize's connect resolves: a pending or new attempt
      resolves when its socket opens before the timeout, an open socket at
      once, and without a stored token it rejects. */
  predicate Resolves(connecting: bool, socket: Option<ClientSocket.ReadyState>, token: Option<string>, opens: bool) {
    if connecting then opens
    else if socket == Some(ClientSocket.Open) then true
    else Truthy(token) && opens
  }

  class ChatState {
    var rooms: seq<ClientRoom>
    var messages: map<RoomId, seq<Message>>
    var currentRoomId: Option<RoomId>
    var isConnected: bool
    var typingUsers: map<RoomId, set<UserId>>
    var onlineUsers: map<RoomId, set<UserId>>
    /** The HTTP requests made so far, oldest first. */
    var requests: seq<Request>
    const socket: ClientSocket.WebSocketService

    ghost predicate Valid()
      reads this, socket
    {
      socket.Valid()
    }

    constructor (s: ClientSocket.WebSocketService)
      ensures socket == s
      ensures rooms == [] && messages == map[] && currentRoomId == None && !isConnected
      ensures typingUsers == map[] && onlineUsers == map[] && requests == []
    {
      socket := s;
      rooms := [];
      messages := map[];
      currentRoomId := None;
      isConnected := false;
      typingUsers := map[];
      onlineUsers := map[];
      requests := [];
    }

    /** initialize: connect; on success subscribe the store's handlers
        and load the rooms, on failure record that it is not connected.
        `opens` says whether the awaited socket opens before the timeout;
        `answer` is the room list the server answers with. */
    method Initialize(token: Option<string>, opens: bool, answer: Result<seq<ClientRoom>, string>)
      returns (resolved: bool)
      requires Valid()
      modifies this, socket
      ensures Valid()
      ensures resolved == Resolves(old(socket.connecting), old(socket.socket), token, opens)
      ensures isConnected == resolved
      ensures resolved ==> socket.socket == Some(ClientSocket.Open)
      ensures socket.handlers == if resolved then WithChatHandlers(old(socket.handlers)) else old(socket.handlers)
      ensures requests == old(requests) + (if resolved then [GetRoomsRequest] else [])
      ensures rooms == if resolved && answer.Ok? then answer.value else old(rooms)
      ensures socket.sent == old(socket.sent)
      ensures messages == old(messages) && currentRoomId == old(currentRoomId)
      ensures typingUsers == old(typingUsers) && onlineUsers == old(onlineUsers)
    {
      var c := socket.Connect(token);
      if c == ClientSocket.Pending || c == ClientSocket.Opening {
        if opens {
          socket.OnOpen();
          resolved := true;
        } else {
          var _ := socket.OnTimeout();
          resolved := false;
        }
      } else {
        resolved := c == ClientSocket.AlreadyOpen;
      }
      if !resolved {
        isConnected := false;
        return;
      }
      isConnected := true;
      socket.On("message", NewMessageHandler);
      socket.On("typing", TypingHandler);
      socket.On("presenceUpdate", PresenceHandler);
      socket.On("connected", ConnectedHandler);
      LoadRooms(answer);
    }

    /** The `connected` subscriber. */
    method OnConnected()
      modifies this
      ensures isConnected
      ensures rooms == old(rooms) && messages == old(messages) && currentRoomId == old(currentRoomId)
      ensures typingUsers == old(typingUsers) && onlineUsers == old(onlineUsers) && requests == old(requests)
    {
      isConnected := true;
    }

    /** cleanup: disconnect and forget the room on screen. */
    method Cleanup()
      requires Valid()
      modifies this, socket
      ensures Valid()
      ensures !isConnected && currentRoomId == None
      ensures socket.socket == None && !socket.connecting && !socket.pinging
      ensures socket.handlers == old(socket.handlers) && socket.sent == old(socket.sent)
      ensures rooms == old(rooms) && messages == old(messages)
      ensures typingUsers == old(typingUsers) && onlineUsers == old(onlineUsers) && requests == old(requests)
    {
      socket.Disconnect();
      isConnected := false;
      currentRoomId := None;
    }

    /** loadRooms: the list is replaced by the server's; on failure it is
        kept. */
    method LoadRooms(answer: Result<seq<ClientRoom>, string>)
      modifies this
      ensures requests == old(requests) + [GetRoomsRequest]
      ensures rooms == if answer.Ok? then answer.value else old(rooms)
      ensures messages == old(messages) && currentRoomId == old(currentRoomId) && isConnected == old(isConnected)
      ensures typingUsers == old(typingUsers) && onlineUsers == old(onlineUsers)
    {
      requests := requests + [GetRoomsRequest];
      if answer.Ok? {
        rooms := answer.value;
      }
    }

    /** loadMessages: the room's newest page (50 unless a limit is given)
        replaces what was loaded for it. */
    method LoadMessages(roomId: RoomId, limit: Option<nat>, answer: Result<seq<Message>, string>)
      modifies this
      ensures requests == old(requests) + [GetMessagesRequest(roomId, if limit.Some? then limit.value else DefaultPage, None)]
      ensures messages == if answer.Ok? then old(messages)[roomId := answer.value] else old(messages)
      ensures rooms == old(rooms) && currentRoomId == old(currentRoomId) && isConnected == old(isConnected)
      ensures typingUsers == old(typingUsers) && onlineUsers == old(onlineUsers)
    {
      var n := if limit.Some? then limit.value else DefaultPage;
      requests := requests + [GetMessagesRequest(roomId, n, None)];
      if answer.Ok? {
        messages := messages[roomId := answer.value];
      }
    }

    /** loadMoreMessages: nothing without loaded messages; otherwise the
        50 messages before the first loaded one are asked for and, when
        there are any, put in front. */
    method LoadMoreMessages(roomId: RoomId, answer: Result<seq<Message>, string>)
      modifies this
      ensures var current := MessagesOf(old(messages), roomId);
        && (current == [] ==> requests == old(requests) && messages == old(messages))
        && (current != [] ==>
              && requests == old(requests) + [OlderRequest(roomId, current[0])]
              && messages == if answer.Ok? && answer.value != [] then old(messages)[roomId := answer.value + current]
                             else old(messages))
      ensures rooms == old(rooms) && currentRoomId == old(currentRoomId) && isConnected == old(isConnected)
      ensures typingUsers == old(typingUsers) && onlineUsers == old(onlineUsers)
    {
      var current := MessagesOf(messages, roomId);
      if current == [] {
        return;
      }
      requests := requests + [OlderRequest(roomId, current[0])];
      if answer.Ok? && answer.value != [] {
        messages := messages[roomId := answer.value + current];
      }
    }

    /** joinRoom: asks the gateway to join and puts the room on screen. */
    method JoinRoom(roomId: RoomId)
      requires Valid()
      modifies this, socket
      ensures Valid()
      ensures currentRoomId == Some(roomId)
      ensures socket.sent == old(socket.sent) + ClientSocket.Outgoing(old(socket.socket), ClientSocket.JoinRoomFrame(roomId))
      ensures socket.socket == old(socket.socket) && socket.handlers == old(socket.handlers)
      ensures rooms == old(rooms) && messages == old(messages) && isConnected == old(isConnected)
      ensures typingUsers == old(typingUsers) && onlineUsers == old(onlineUsers) && requests == old(requests)
    {
      socket.JoinRoom(roomId);
      currentRoomId := Some(roomId);
    }

    /** leaveRoom: asks the gateway to leave; the room leaves the screen
        only if it was the one on it. */
    method LeaveRoom(roomId: RoomId)
      requires Valid()
      modifies this, socket
      ensures Valid()
      ensures currentRoomId == if old(currentRoomId) == Some(roomId) then None else old(currentRoomId)
      ensures socket.sent == old(socket.sent) + ClientSocket.Outgoing(old(socket.socket), ClientSocket.LeaveRoomFrame(roomId))
      ensures socket.socket == old(socket.socket) && socket.handlers == old(socket.handlers)
      ensures rooms == old(rooms) && messages == old(messages) && isConnected == old(isConnected)
      ensures typingUsers == old(typingUsers) && onlineUsers == old(onlineUsers) && requests == old(requests)
    {
      socket.LeaveRoom(roomId);
      if currentRoomId == Some(roomId) {
        currentRoomId := None;
      }
    }

    /** sendMessage: blank content is not sent; otherwise the trimmed
        content goes out as a text message. */
    method SendMessage(roomId: RoomId, content: string)
      requires Valid()
      modifies socket
      ensures Valid()
      ensures Trim(content) == [] ==> socket.sent == old(socket.sent)
      ensures Trim(content) != [] ==>
        socket.sent == old(socket.sent) + ClientSocket.Outgoing(old(socket.socket),
                                            ClientSocket.SendMessageFrame(roomId, Trim(content), None))
      ensures socket.socket == old(socket.socket) && socket.handlers == old(socket.handlers)
    {
      var text := Trim(content);
      if text == [] {
        return;
      }
      socket.SendMessage(roomId, text, None);
    }

    /** sendTyping: only while the store believes it is connected. */
    method SendTyping(roomId: RoomId, isTyping: bool)
      requires Valid()
      modifies socket
      ensures Valid()
      ensures !isConnected ==> socket.sent == old(socket.sent)
      ensures isConnected ==>
        socket.sent == old(socket.sent) + ClientSocket.Outgoing(old(socket.socket), ClientSocket.TypingFrame(roomId, isTyping))
      ensures socket.socket == old(socket.socket) && socket.handlers == old(socket.handlers)
    {
      if isConnected {
        socket.SendTyping(roomId, isTyping);
      }
    }

    /** markAsRead: nothing without loaded messages or when the listed
        room already shows zero unread; otherwise the server is told the
        last loaded message's sequence number and, once it accepts, the
        room shows zero unread. */
    method MarkAsRead(roomId: RoomId, answer: Result<(), string>)
      modifies this
      ensures var loaded := MessagesOf(old(messages), roomId);
        && (loaded == [] || AlreadyRead(old(rooms), roomId) ==> requests == old(requests) && rooms == old(rooms))
        && (loaded != [] && !AlreadyRead(old(rooms), roomId) ==>
              && requests == old(requests) + [MarkAsReadRequest(roomId, loaded[|loaded| - 1].sequenceId)]
              && rooms == if answer.Ok? then ZeroUnread(old(rooms), roomId) else old(rooms))
      ensures messages == old(messages) && currentRoomId == old(currentRoomId) && isConnected == old(isConnected)
      ensures typingUsers == old(typingUsers) && onlineUsers == old(onlineUsers)
    {
      var loaded := MessagesOf(messages, roomId);
      if loaded == [] {
        return;
      }
      var i := RoomIndex(rooms, roomId);
      if i.Some? && rooms[i.value].unreadCount == Some(0) {
        return;
      }
      requests := requests + [MarkAsReadRequest(roomId, loaded[|loaded| - 1].sequenceId)];
      if answer.Ok? {
        rooms := ZeroUnread(rooms, roomId);
      }
    }

    /** createDirectRoom: the server's room is listed (in front, unless
        already there) with its messages, and its id returned; a failure is
        passed on and changes nothing. */
    method CreateDirectRoom(targetUserId: UserId, answer: Result<(ClientRoom, seq<Message>), string>)
      returns (r: Result<RoomId, string>)
      modifies this
      ensures requests == old(requests) + [CreateDirectRequest(targetUserId)]
      ensures answer.Err? ==> r == Err(answer.error) && rooms == old(rooms) && messages == old(messages)
      ensures answer.Ok? ==>
        var room := answer.value.0;
        && r == Ok(room.id)
        && rooms == WithRoom(old(rooms), room)
        && messages == old(messages)[room.id := answer.value.1]
      ensures currentRoomId == old(currentRoomId) && isConnected == old(isConnected)
      ensures typingUsers == old(typingUsers) && onlineUsers == old(onlineUsers)
    {
      requests := requests + [CreateDirectRequest(targetUserId)];
      if answer.Err? {
        return Err(answer.error);
      }
      var room := answer.value.0;
      if RoomIndex(rooms, room.id).None? {
        rooms := [room] + rooms;
      }
      messages := messages[room.id := answer.value.1];
      r := Ok(room.id);
    }

    /** handleNewMessage: the message is added unless already held; its
        room is touched and the list re-sorted even for a repeated
        message, so a repeat counts as unread again. */
    method HandleNewMessage(m: Message)
      modifies this
      ensures messages == WithMessage(old(messages), m)
      ensures rooms == Resorted(old(rooms), m, old(currentRoomId))
      ensures currentRoomId == old(currentRoomId) && isConnected == old(isConnected)
      ensures typingUsers == old(typingUsers) && onlineUsers == old(onlineUsers) && requests == old(requests)
    {
      var list := MessagesOf(messages, m.roomId);
      if !HasId(list, m.id) {
        messages := messages[m.roomId := list + [m]];
      }
      rooms := SortDescBy(Touched(rooms, m, currentRoomId), Time);
    }

    /** handleTyping (and, for a typing start, its timer as a separate
        step: TypingTimeout). */
    method HandleTyping(e: TypingEvent)
      modifies this
      ensures typingUsers == Typed(old(typingUsers), e)
      ensures rooms == old(rooms) && messages == old(messages) && currentRoomId == old(currentRoomId)
      ensures isConnected == old(isConnected) && onlineUsers == old(onlineUsers) && requests == old(requests)
    {
      if !Truthy(e.roomId) {
        return;
      }
      var users := UsersIn(typingUsers, e.roomId.value);
      typingUsers := typingUsers[e.roomId.value := if e.isTyping then users + {e.userId} else users - {e.userId}];
    }

    /** The timer a typing start sets: three seconds later the user is no
        longer shown typing in the room. */
    method TypingTimeout(roomId: RoomId, userId: UserId)
      modifies this
      ensures typingUsers == TypingExpired(old(typingUsers), roomId, userId)
      ensures rooms == old(rooms) && messages == old(messages) && currentRoomId == old(currentRoomId)
      ensures isConnected == old(isConnected) && onlineUsers == old(onlineUsers) && requests == old(requests)
    {
      if roomId in typingUsers {
        typingUsers := typingUsers[roomId := typingUsers[roomId] - {userId}];
      }
    }

    method HandlePresenceUpdate(e: PresenceEvent)
      modifies this
      ensures onlineUsers == Presence(old(onlineUsers), e)
      ensures rooms == old(rooms) && messages == old(messages) && currentRoomId == old(currentRoomId)
      ensures isConnected == old(isConnected) && typingUsers == old(typingUsers) && requests == old(requests)
    {
      if !Truthy(e.roomId) {
        return;
      }
      var users := UsersIn(onlineUsers, e.roomId.value);
      onlineUsers := onlineUsers[e.roomId.value := if e.status == "online" then users + {e.userId} else users - {e.userId}];
    }
  }
}
