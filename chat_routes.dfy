/** The HTTP routes of routes/chat.ts, run after requireAuth has attached
    the caller: guards, defaults and the shape of each response, over the
    message store and the gateway. */
module ChatRoutes {
  import opened Common
  import opened Messaging
  import Gateway

  datatype ChatResponse =
    | RoomList(rooms: seq<RoomSummary>, count: nat)
    | HistoryPage(messages: seq<Message>, count: nat, unreadCount: nat, hasMore: bool)
    | UnreadOf(roomId: RoomId, unreadCount: nat)
    | MarkedUpTo(roomId: RoomId, markedUpTo: int)
    | OnlineIn(roomId: RoomId, onlineUsers: set<UserId>, count: nat)
    | DirectRoom(room: Room, messages: seq<Message>, unreadCount: nat)
    | CleanedUp(message: string)
    | Failure(status: int, error: string)

  /** The page size when the query gives none, and the number of messages
      cleanup keeps when the query gives none. */
  const DefaultLimit: nat := 100
  const DefaultKeepLast: nat := 100
  /** The history sent with a direct room. */
  const DirectHistoryLimit: nat := 50

  /** GET /chat/rooms: the caller's rooms and how many there are. */
  function GetRooms(svc: MessageService, userId: UserId): (r: ChatResponse)
    reads svc
    ensures r.RoomList? && r.count == |r.rooms| == |RoomsOf(svc.rooms, userId)|
    ensures r.rooms == UserRooms(svc.rooms, svc.messages, userId)
  {
    var rooms := UserRooms(svc.rooms, svc.messages, userId);
    RoomList(rooms, |rooms|)
  }

  /** GET /chat/rooms/:roomId/messages: a history page of at most `limit`
      messages (100 by default), the caller's unread count, and hasMore
      exactly when the page is full. */
  function GetMessages(svc: MessageService, userId: UserId, roomId: RoomId, limit: Option<nat>, before: Option<int>)
    : (r: ChatResponse)
    reads svc
    ensures r.HistoryPage?
    ensures r.messages == History(svc.messages, roomId, OrDefault(limit, DefaultLimit), before)
    ensures r.count == |r.messages| <= OrDefault(limit, DefaultLimit)
    ensures r.hasMore <==> r.count == OrDefault(limit, DefaultLimit)
    ensures r.unreadCount == UnreadCount(svc.messages, roomId, userId)
  {
    var n := OrDefault(limit, DefaultLimit);
    var messages := History(svc.messages, roomId, n, before);
    HistoryPage(messages, |messages|, UnreadCount(svc.messages, roomId, userId), |messages| == n)
  }

  /** A page that is not full holds every remaining candidate: when
      hasMore is false there is nothing older to fetch. */
  lemma {:induction false} NoMoreMeansComplete(ms: seq<Message>, roomId: RoomId, limit: nat, before: Option<int>)
    requires Consecutive(RoomMessages(ms, roomId))
    requires |History(ms, roomId, limit, before)| != limit
    ensures History(ms, roomId, limit, before) == HistoryCandidates(ms, roomId, before)
  {
    HistoryIsNewestSuffix(ms, roomId, limit, before);
  }

  /** A full page says hasMore even when nothing older is left: a room of
      exactly `limit` messages. */
  lemma FullLastPageSaysMore()
    ensures var m := Message("m1", "r", "u", "hi", "text", 1, ["u"], 0);
      |History([m], "r", 1, None)| == 1 && HistoryCandidates([m], "r", Some(1)) == []
  {
    var m := Message("m1", "r", "u", "hi", "text", 1, ["u"], 0);
    assert [m][..0] == [];
    assert RoomMessages([m], "r") == [m];
    HistoryIsNewestSuffix([m], "r", 1, None);
  }

  /** GET /chat/rooms/:roomId/unread. */
  function GetUnread(svc: MessageService, userId: UserId, roomId: RoomId): (r: ChatResponse)
    reads svc
    ensures r == UnreadOf(roomId, UnreadCount(svc.messages, roomId, userId))
  {
    UnreadOf(roomId, UnreadCount(svc.messages, roomId, userId))
  }

  /** POST /chat/rooms/:roomId/read: a falsy sequenceId is refused with
      400 and marks nothing; otherwise the caller reads the room up to it. */
  method MarkRead(svc: MessageService, userId: UserId, roomId: RoomId, sequenceId: Option<int>)
    returns (r: ChatResponse)
    requires svc.Valid()
    modifies svc
    ensures svc.Valid()
    ensures !TruthyInt(sequenceId) ==> r == Failure(400, "Sequence ID required") && unchanged(svc)
    ensures TruthyInt(sequenceId) ==>
      r == MarkedUpTo(roomId, sequenceId.value)
      && svc.messages == MarkedRead(old(svc.messages), Some(roomId), userId, sequenceId)
      && svc.rooms == old(svc.rooms)
  {
    if !TruthyInt(sequenceId) {
      return Failure(400, "Sequence ID required");
    }
    svc.MarkMessagesAsRead(Some(roomId), userId, sequenceId);
    r := MarkedUpTo(roomId, sequenceId.value);
  }

  /** GET /chat/rooms/:roomId/online: the users connected to this
      instance who joined the room. */
  method GetOnline(ws: Gateway.WebSocketService, roomId: RoomId) returns (r: ChatResponse)
    requires ws.Valid()
    ensures r.OnlineIn? && r.roomId == roomId && r.count == |r.onlineUsers|
    ensures forall u :: u in r.onlineUsers <==>
      exists c :: c in ws.conns && ws.conns[c].userId == u && roomId in ws.conns[c].rooms
  {
    var users := ws.GetOnlineUsersInRoom(roomId);
    r := OnlineIn(roomId, users, |users|);
  }

  /** POST /chat/direct: refused with 400 without a target or with the
      caller as target, before the store is touched; otherwise the direct
      room with its 50 newest messages and the caller's unread count, or
      500 when the room cannot be created. */
  method Direct(svc: MessageService, userId: UserId, targetUserId: Option<UserId>) returns (r: ChatResponse)
    requires svc.Valid()
    modifies svc
    ensures svc.Valid()
    ensures !Truthy(targetUserId) ==> r == Failure(400, "Target user ID required") && unchanged(svc)
    ensures Truthy(targetUserId) && targetUserId.value == userId ==>
      r == Failure(400, "Cannot create room with yourself") && unchanged(svc)
    ensures Truthy(targetUserId) && targetUserId.value != userId ==>
      var other := targetUserId.value;
      && svc.messages == old(svc.messages)
      && (FindDirectRoom(old(svc.rooms), userId, other).Some? ==> svc.rooms == old(svc.rooms))
      && (FindDirectRoom(old(svc.rooms), userId, other).None? && userId in svc.users && other in svc.users ==>
            && r.DirectRoom? && svc.rooms == old(svc.rooms) + [r.room]
            && r.room.id !in RoomIds(old(svc.rooms))
            && r.room.user1Id == Some(SortPair(userId, other).0) && r.room.user2Id == Some(SortPair(userId, other).1))
      && (FindDirectRoom(svc.rooms, userId, other).Some? ==>
            && r.DirectRoom?
            && r.room == svc.rooms[FindDirectRoom(svc.rooms, userId, other).value]
            && r.messages == History(svc.messages, r.room.id, DirectHistoryLimit, None)
            && r.unreadCount == UnreadCount(svc.messages, r.room.id, userId))
      && (FindDirectRoom(svc.rooms, userId, other).None? ==>
            r == Failure(500, Gateway.StoreErrorText(UserNotFound)) && svc.rooms == old(svc.rooms))
      && (FindDirectRoom(old(svc.rooms), userId, other).None? && !(userId in svc.users && other in svc.users) ==>
            r == Failure(500, Gateway.StoreErrorText(UserNotFound)) && svc.rooms == old(svc.rooms))
  {
    if !Truthy(targetUserId) {
      return Failure(400, "Target user ID required");
    }
    if targetUserId.value == userId {
      return Failure(400, "Cannot create room with yourself");
    }
    var room := svc.GetOrCreateDirectRoom(userId, targetUserId.value);
    if room.Err? {
      return Failure(500, Gateway.StoreErrorText(room.error));
    }
    var messages := History(svc.messages, room.value.id, DirectHistoryLimit, None);
    r := DirectRoom(room.value, messages, UnreadCount(svc.messages, room.value.id, userId));
  }

  /** DELETE /chat/rooms/:roomId/cleanup: only an ADMIN may prune (403
      otherwise, deleting nothing); keepLast defaults to 100. */
  method Cleanup(svc: MessageService, role: string, roomId: RoomId, keepLast: Option<nat>) returns (r: ChatResponse)
    requires svc.Valid()
    modifies svc
    ensures svc.Valid()
    ensures role != "ADMIN" ==> r == Failure(403, "Admin access required") && unchanged(svc)
    ensures role == "ADMIN" ==>
      var n := OrDefault(keepLast, DefaultKeepLast);
      && r == CleanedUp("Cleaned up old messages, kept last " + Decimal(n))
      && svc.messages == WithoutIds(old(svc.messages), DoomedIds(old(svc.messages), roomId, n))
      && svc.rooms == old(svc.rooms)
  {
    var n := OrDefault(keepLast, DefaultKeepLast);
    if role != "ADMIN" {
      return Failure(403, "Admin access required");
    }
    svc.CleanupOldMessages(roomId, n);
    r := CleanedUp("Cleaned up old messages, kept last " + Decimal(n));
  }
}
