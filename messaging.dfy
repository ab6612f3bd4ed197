/** The chat store of services/messageService.ts: rooms (direct, call and
    group), their messages with per-room sequence numbers, read receipts,
    history pages, unread counts, the room list and the pruning of old
    messages. The database is the pair of sequences `rooms` and `messages`
    held by MessageService, in insertion order. */
module Messaging {
  import opened Common

  type UserId = string
  type RoomId = string
  type MessageId = string

  datatype RoomType = Direct | Call | Group

  datatype Room = Room(
    id: RoomId,
    kind: RoomType,
    user1Id: Option<UserId>,
    user2Id: Option<UserId>,
    callId: Option<string>,
    lastMessageAt: Option<nat>,
    lastMessageText: Option<string>)

  /** `kind` is the message's `type` column ("text" unless the sender says
      otherwise); `readBy` lists the users who have read it. */
  datatype Message = Message(
    id: MessageId,
    roomId: RoomId,
    senderId: UserId,
    content: string,
    kind: string,
    sequenceId: int,
    readBy: seq<UserId>,
    createdAt: nat)

  /** A row would reference a room, user or call that does not exist, and
      the database's foreign key refuses it. */
  datatype StoreError = RoomNotFound | UserNotFound | CallNotFound

  /** Characters of a message kept as the room's preview text. */
  const PreviewLength: nat := 100

  // ---------------------------------------------------------------------
  // Direct and call rooms

  /** The two participants in the default sort order, smaller first. */
  function SortPair(a: UserId, b: UserId): (p: (UserId, UserId))
    ensures LexLe(p.0, p.1)
    ensures (p.0 == a && p.1 == b) || (p.0 == b && p.1 == a)
  {
    LexLeTotal(a, b);
    if LexLe(a, b) then (a, b) else (b, a)
  }

  /** The order in which the two users are named does not matter. */
  lemma {:induction false} SortPairSymmetric(a: UserId, b: UserId)
    ensures SortPair(a, b) == SortPair(b, a)
  {
    if LexLe(a, b) && LexLe(b, a) {
      LexLeAntisymmetric(a, b);
    }
  }

  /** The lookup condition: a direct room holding a and b in either column. */
  predicate IsDirectBetween(r: Room, a: UserId, b: UserId) {
    r.kind == Direct
    && ((r.user1Id == Some(a) && r.user2Id == Some(b))
        || (r.user1Id == Some(b) && r.user2Id == Some(a)))
  }

  /** Two direct rooms for the same unordered pair of users. */
  predicate SameDirectPair(x: Room, y: Room) {
    x.kind == Direct && y.kind == Direct
    && ((x.user1Id == y.user1Id && x.user2Id == y.user2Id)
        || (x.user1Id == y.user2Id && x.user2Id == y.user1Id))
  }

  /** The first direct room between a and b, looked up with the sorted pair. */
  function FindDirectRoom(rooms: seq<Room>, a: UserId, b: UserId): (r: Option<nat>)
    ensures r.Some? ==> r.value < |rooms| && IsDirectBetween(rooms[r.value], a, b)
    ensures r.None? ==> forall k :: 0 <= k < |rooms| ==> !IsDirectBetween(rooms[k], a, b)
  {
    var p := SortPair(a, b);
    FirstIndex(rooms, (room: Room) => IsDirectBetween(room, p.0, p.1))
  }

  lemma {:induction false} FindDirectRoomSymmetric(rooms: seq<Room>, a: UserId, b: UserId)
    ensures FindDirectRoom(rooms, a, b) == FindDirectRoom(rooms, b, a)
  {
    SortPairSymmetric(a, b);
  }

  /** The first room, of any kind, attached to the call. */
  function FindCallRoom(rooms: seq<Room>, callId: string): (r: Option<nat>)
    ensures r.Some? ==> r.value < |rooms| && rooms[r.value].callId == Some(callId)
    ensures r.None? ==> forall k :: 0 <= k < |rooms| ==> rooms[k].callId != Some(callId)
  {
    FirstIndex(rooms, (room: Room) => room.callId == Some(callId))
  }

  function FindRoom(rooms: seq<Room>, roomId: RoomId): (r: Option<nat>)
    ensures r.Some? ==> r.value < |rooms| && rooms[r.value].id == roomId
    ensures r.None? ==> forall k :: 0 <= k < |rooms| ==> rooms[k].id != roomId
  {
    FirstIndex(rooms, (room: Room) => room.id == roomId)
  }

  function RoomIds(rooms: seq<Room>): set<RoomId> {
    set k | 0 <= k < |rooms| :: rooms[k].id
  }

  /** What the store keeps true of its rooms: unique ids, at most one
      direct room per pair of users and at most one room per call. */
  ghost predicate RoomsValid(rooms: seq<Room>) {
    && (forall i, j :: 0 <= i < j < |rooms| ==> rooms[i].id != rooms[j].id)
    && (forall i, j :: 0 <= i < j < |rooms| ==> !SameDirectPair(rooms[i], rooms[j]))
    && (forall i, j :: 0 <= i < j < |rooms| ==>
          rooms[i].callId.None? || rooms[i].callId != rooms[j].callId)
  }

  /** Recording a new last message changes neither ids, users nor calls. */
  lemma {:induction false} TouchKeepsRooms(rooms: seq<Room>, idx: nat, at: nat, text: string)
    requires idx < |rooms|
    requires RoomsValid(rooms)
    ensures var t := rooms[idx := rooms[idx].(lastMessageAt := Some(at), lastMessageText := Some(text))];
      RoomsValid(t) && RoomIds(t) == RoomIds(rooms)
  {
    var t := rooms[idx := rooms[idx].(lastMessageAt := Some(at), lastMessageText := Some(text))];
    assert forall k :: 0 <= k < |rooms| ==> t[k].id == rooms[k].id;
    assert RoomIds(t) == RoomIds(rooms) by {
      forall x | x in RoomIds(rooms) ensures x in RoomIds(t) {
        var k :| 0 <= k < |rooms| && rooms[k].id == x;
        assert t[k].id == x;
      }
    }
  }

  // ---------------------------------------------------------------------
  // Messages of a room

  /** The messages of one room, in storage order. */
  function RoomMessages(ms: seq<Message>, roomId: RoomId): (r: seq<Message>)
    ensures |r| <= |ms|
    ensures forall k :: 0 <= k < |r| ==> r[k].roomId == roomId
  {
    if ms == [] then []
    else
      var last := ms[|ms| - 1];
      assert ms == ms[..|ms| - 1] + [last];
      RoomMessages(ms[..|ms| - 1], roomId) + (if last.roomId == roomId then [last] else [])
  }

  lemma {:induction false} RoomMessagesAppend(ms: seq<Message>, m: Message, roomId: RoomId)
    ensures RoomMessages(ms + [m], roomId)
         == RoomMessages(ms, roomId) + (if m.roomId == roomId then [m] else [])
  {
    assert (ms + [m])[..|ms|] == ms;
  }

  /** Sequence numbers in storage order go up by one from a positive start. */
  ghost predicate Consecutive(ms: seq<Message>) {
    ms != [] ==>
      && ms[0].sequenceId >= 1
      && forall k :: 0 <= k < |ms| ==> ms[k].sequenceId == ms[0].sequenceId + k
  }

  ghost predicate StrictlyAscending(ms: seq<Message>) {
    forall i, j :: 0 <= i < j < |ms| ==> ms[i].sequenceId < ms[j].sequenceId
  }

  lemma {:induction false} ConsecutiveAscending(ms: seq<Message>)
    requires Consecutive(ms)
    ensures StrictlyAscending(ms)
    ensures forall k :: 0 <= k < |ms| ==> ms[k].sequenceId >= 1
  {
  }

  lemma {:induction false} ConsecutiveSuffix(ms: seq<Message>, j: nat)
    requires Consecutive(ms)
    requires j <= |ms|
    ensures Consecutive(ms[j..])
  {
    if j < |ms| {
      forall k | 0 <= k < |ms| - j
        ensures ms[j..][k].sequenceId == ms[j..][0].sequenceId + k
      {
        assert ms[j..][k] == ms[j + k];
      }
    }
  }

  function SeqKey(m: Message): int {
    m.sequenceId
  }

  /** The largest sequence number among some messages. */
  function MaxSequenceId(ms: seq<Message>): (r: int)
    requires ms != []
    ensures forall k :: 0 <= k < |ms| ==> ms[k].sequenceId <= r
    ensures exists k :: 0 <= k < |ms| && ms[k].sequenceId == r
  {
    if |ms| == 1 then ms[0].sequenceId
    else
      var m := MaxSequenceId(ms[..|ms| - 1]);
      var l := ms[|ms| - 1].sequenceId;
      assert forall k :: 0 <= k < |ms| - 1 ==> ms[..|ms| - 1][k] == ms[k];
      if l > m then l else m
  }

  /** The number createMessage gives the next message of a room: one more
      than the highest number in the room, or than 0 when it has none. */
  function NextSequenceId(ms: seq<Message>, roomId: RoomId): int {
    var rm := RoomMessages(ms, roomId);
    (if rm == [] then 0 else MaxSequenceId(rm)) + 1
  }

  /** In a room whose numbers are consecutive, the next number follows the
      last one, exceeds every number used, and starts the room at 1. */
  lemma {:induction false} NextSequenceIdFollowsLast(ms: seq<Message>, roomId: RoomId)
    requires Consecutive(RoomMessages(ms, roomId))
    ensures var rm := RoomMessages(ms, roomId);
      && NextSequenceId(ms, roomId) == (if rm == [] then 1 else rm[|rm| - 1].sequenceId + 1)
      && forall k :: 0 <= k < |rm| ==> rm[k].sequenceId < NextSequenceId(ms, roomId)
  {
    var rm := RoomMessages(ms, roomId);
    if rm != [] {
      ConsecutiveAscending(rm);
      var mx := MaxSequenceId(rm);
      var k :| 0 <= k < |rm| && rm[k].sequenceId == mx;
      assert rm[|rm| - 1].sequenceId <= mx;
      assert rm[k].sequenceId <= rm[|rm| - 1].sequenceId;
    }
  }

  /** Message ids are unique. */
  ghost predicate UniqueIds(ms: seq<Message>) {
    forall i, j :: 0 <= i < j < |ms| ==> ms[i].id != ms[j].id
  }

  ghost predicate NoDuplicates(s: seq<UserId>) {
    forall i, j :: 0 <= i < j < |s| ==> s[i] != s[j]
  }

  /** What the store keeps true of its messages: unique ids, every message
      in an existing room, read by its sender without repetition, and in
      each room numbered consecutively; a room never pruned starts at 1. */
  ghost predicate MessagesValid(rooms: seq<Room>, ms: seq<Message>, pruned: set<RoomId>) {
    && UniqueIds(ms)
    && (forall k :: 0 <= k < |ms| ==> ms[k].roomId in RoomIds(rooms))
    && (forall k :: 0 <= k < |ms| ==> ms[k].senderId in ms[k].readBy && NoDuplicates(ms[k].readBy))
    && Numbered(ms, pruned)
  }

  /** In each room the numbers are consecutive; a room never pruned starts
      at 1. */
  ghost predicate Numbered(ms: seq<Message>, pruned: set<RoomId>) {
    && (forall r :: Consecutive(RoomMessages(ms, r)))
    && (forall r :: r !in pruned && RoomMessages(ms, r) != [] ==>
          RoomMessages(ms, r)[0].sequenceId == 1)
  }

  // ---------------------------------------------------------------------
  // History

  /** The messages of a room with a number below `bound`. */
  function Earlier(ms: seq<Message>, bound: int): (r: seq<Message>)
    ensures |r| <= |ms|
    ensures forall k :: 0 <= k < |r| ==> r[k].sequenceId < bound
  {
    if ms == [] then []
    else
      var last := ms[|ms| - 1];
      assert ms == ms[..|ms| - 1] + [last];
      Earlier(ms[..|ms| - 1], bound) + (if last.sequenceId < bound then [last] else [])
  }

  /** The query of getMessageHistory before ordering: the room's messages,
      restricted to those below the cursor when the cursor is truthy. */
  function HistoryCandidates(ms: seq<Message>, roomId: RoomId, before: Option<int>): (c: seq<Message>)
    ensures Matching(c, roomId, before)
  {
    var rm := RoomMessages(ms, roomId);
    if TruthyInt(before) then EarlierFrom(rm, before.value); Earlier(rm, before.value) else rm
  }

  /** Every message is in the room and, under a truthy cursor, below it. */
  ghost predicate Matching(s: seq<Message>, roomId: RoomId, before: Option<int>) {
    forall k :: 0 <= k < |s| ==>
      s[k].roomId == roomId && (TruthyInt(before) ==> s[k].sequenceId < before.value)
  }

  /** getMessageHistory: the `limit` highest-numbered candidates, newest
      first, then reversed into chronological order. */
  function History(ms: seq<Message>, roomId: RoomId, limit: nat, before: Option<int>): (h: seq<Message>)
    ensures |h| <= limit
  {
    Reverse(Take(SortDescBy(HistoryCandidates(ms, roomId, before), SeqKey), limit))
  }

  /** Every message of a history page is in the room and, under a truthy
      cursor, below it. */
  lemma HistoryMatches(ms: seq<Message>, roomId: RoomId, limit: nat, before: Option<int>)
    ensures Matching(History(ms, roomId, limit, before), roomId, before)
  {
    var c := HistoryCandidates(ms, roomId, before);
    var page := Take(SortDescBy(c, SeqKey), limit);
    SortDescByMembers(c, SeqKey);
    ReverseAt(page);
  }

  lemma {:induction false} EarlierFrom(ms: seq<Message>, bound: int)
    ensures forall k :: 0 <= k < |Earlier(ms, bound)| ==> Earlier(ms, bound)[k] in ms
  {
    if ms != [] {
      EarlierFrom(ms[..|ms| - 1], bound);
    }
  }

  lemma {:induction false} EarlierAll(ms: seq<Message>, bound: int)
    requires forall k :: 0 <= k < |ms| ==> ms[k].sequenceId < bound
    ensures Earlier(ms, bound) == ms
  {
    if ms != [] {
      EarlierAll(ms[..|ms| - 1], bound);
      assert ms == ms[..|ms| - 1] + [ms[|ms| - 1]];
    }
  }

  /** Of an ascending run, the messages below a bound form a prefix. */
  lemma {:induction false} EarlierIsPrefix(ms: seq<Message>, bound: int)
    requires StrictlyAscending(ms)
    ensures Earlier(ms, bound) == ms[..|Earlier(ms, bound)|]
  {
    if ms != [] {
      var init := ms[..|ms| - 1];
      var last := ms[|ms| - 1];
      assert ms == init + [last];
      if last.sequenceId < bound {
        EarlierAll(init, bound);
        assert Earlier(ms, bound) == init + [last];
      } else {
        EarlierIsPrefix(init, bound);
        assert Earlier(ms, bound) == Earlier(init, bound);
        assert init[..|Earlier(init, bound)|] == ms[..|Earlier(init, bound)|];
      }
    }
  }

  /** Of an ascending run, the messages below the j-th are the first j. */
  lemma {:induction false} EarlierThanElement(ms: seq<Message>, j: nat)
    requires StrictlyAscending(ms)
    requires j < |ms|
    ensures Earlier(ms, ms[j].sequenceId) == ms[..j]
  {
    var init := ms[..|ms| - 1];
    assert ms == init + [ms[|ms| - 1]];
    if j == |ms| - 1 {
      EarlierAll(init, ms[j].sequenceId);
    } else {
      EarlierThanElement(init, j);
    }
  }

  /** With consecutive numbers, the candidates are the oldest messages of
      the room, in ascending order. */
  lemma {:induction false} CandidatesArePrefix(ms: seq<Message>, roomId: RoomId, before: Option<int>)
    requires Consecutive(RoomMessages(ms, roomId))
    ensures var c := HistoryCandidates(ms, roomId, before);
      c == RoomMessages(ms, roomId)[..|c|] && StrictlyAscending(c)
  {
    var rm := RoomMessages(ms, roomId);
    var c := HistoryCandidates(ms, roomId, before);
    ConsecutiveAscending(rm);
    assert c == rm[..|c|] by {
      if TruthyInt(before) {
        EarlierIsPrefix(rm, before.value);
      }
    }
    AscendingPrefix(rm, |c|);
  }

  lemma {:induction false} AscendingPrefix(ms: seq<Message>, n: nat)
    requires StrictlyAscending(ms)
    requires n <= |ms|
    ensures StrictlyAscending(ms[..n])
  {
    forall i, j | 0 <= i < j < n ensures ms[..n][i].sequenceId < ms[..n][j].sequenceId {
      assert ms[..n][i] == ms[i] && ms[..n][j] == ms[j];
    }
  }

  /** Of an ascending run, a message outside the last k is older than
      all of them. */
  lemma {:induction false} SuffixIsNewest(c: seq<Message>, k: nat)
    requires StrictlyAscending(c)
    requires k <= |c|
    ensures StrictlyAscending(c[|c| - k..])
    ensures k > 0 ==> forall m :: m in c && m !in c[|c| - k..] ==>
      m.sequenceId < c[|c| - k].sequenceId
  {
    var h := c[|c| - k..];
    forall m | k > 0 && m in c && m !in h ensures m.sequenceId < c[|c| - k].sequenceId {
      var i :| 0 <= i < |c| && c[i] == m;
    }
  }

  /** The page getMessageHistory returns is the last `limit` candidates,
      in chronological order. */
  lemma {:induction false} HistoryIsNewestSuffix(ms: seq<Message>, roomId: RoomId, limit: nat, before: Option<int>)
    requires Consecutive(RoomMessages(ms, roomId))
    ensures var c := HistoryCandidates(ms, roomId, before);
      var h := History(ms, roomId, limit, before);
      |h| == |Take(c, limit)| && h == c[|c| - |h|..]
  {
    var c := HistoryCandidates(ms, roomId, before);
    CandidatesArePrefix(ms, roomId, before);
    SortDescOfAscending(c, SeqKey);
    var k := |Take(c, limit)|;
    ReverseOfReversedPrefix(c, k);
  }

  /** A history page is ascending, holds min(limit, candidates) messages,
      and every candidate left out is older than every message on it. */
  lemma {:induction false} HistoryPageIsNewest(ms: seq<Message>, roomId: RoomId, limit: nat, before: Option<int>)
    requires Consecutive(RoomMessages(ms, roomId))
    ensures var c := HistoryCandidates(ms, roomId, before);
      var h := History(ms, roomId, limit, before);
      && |h| == |Take(c, limit)|
      && StrictlyAscending(h)
      && (h != [] ==> forall m :: m in c && m !in h ==> m.sequenceId < h[0].sequenceId)
  {
    var c := HistoryCandidates(ms, roomId, before);
    HistoryIsNewestSuffix(ms, roomId, limit, before);
    CandidatesArePrefix(ms, roomId, before);
    SuffixIsNewest(c, |Take(c, limit)|);
  }

  /** Taking the j-th candidate as the next cursor leaves the j before it. */
  lemma {:induction false} CursorAtCandidate(ms: seq<Message>, roomId: RoomId, before: Option<int>, j: nat)
    requires Consecutive(RoomMessages(ms, roomId))
    requires j < |HistoryCandidates(ms, roomId, before)|
    ensures var c := HistoryCandidates(ms, roomId, before);
      HistoryCandidates(ms, roomId, Some(c[j].sequenceId)) == c[..j]
  {
    var rm := RoomMessages(ms, roomId);
    var c := HistoryCandidates(ms, roomId, before);
    CandidatesArePrefix(ms, roomId, before);
    ConsecutiveAscending(rm);
    assert c[j] == rm[j];
    assert TruthyInt(Some(c[j].sequenceId));
    EarlierThanElement(rm, j);
    assert rm[..j] == c[..j];
  }

  /** The cursor taken from a page selects exactly the candidates older
      than that page. */
  lemma {:induction false} CursorOfPage(ms: seq<Message>, roomId: RoomId, limit: nat, before: Option<int>)
    requires Consecutive(RoomMessages(ms, roomId))
    requires History(ms, roomId, limit, before) != []
    ensures var c := HistoryCandidates(ms, roomId, before);
      var p := History(ms, roomId, limit, before);
      && |p| <= |c| && p == c[|c| - |p|..]
      && HistoryCandidates(ms, roomId, Some(p[0].sequenceId)) == c[..|c| - |p|]
  {
    var c := HistoryCandidates(ms, roomId, before);
    var p := History(ms, roomId, limit, before);
    HistoryIsNewestSuffix(ms, roomId, limit, before);
    assert p[0] == c[|c| - |p|];
    CursorAtCandidate(ms, roomId, before, |c| - |p|);
  }

  /** Paging backwards with the first message of a page as the next cursor
      yields the page just before it: together the two pages are the
      newest |p1| + |p2| candidates, with no message missed and none
      repeated. */
  lemma {:induction false} HistoryPagesTile(ms: seq<Message>, roomId: RoomId, limit1: nat, limit2: nat, before: Option<int>)
    requires Consecutive(RoomMessages(ms, roomId))
    requires History(ms, roomId, limit1, before) != []
    ensures var c := HistoryCandidates(ms, roomId, before);
      var p1 := History(ms, roomId, limit1, before);
      var p2 := History(ms, roomId, limit2, Some(p1[0].sequenceId));
      |p1| + |p2| <= |c| && p2 + p1 == c[|c| - (|p1| + |p2|)..]
  {
    var c1 := HistoryCandidates(ms, roomId, before);
    var p1 := History(ms, roomId, limit1, before);
    var cursor := Some(p1[0].sequenceId);
    var c2 := HistoryCandidates(ms, roomId, cursor);
    var p2 := History(ms, roomId, limit2, cursor);
    assert TileOf(c1, p1, c2, p2) by {
      CursorOfPage(ms, roomId, limit1, before);
      HistorySuffix(ms, roomId, limit2, cursor);
    }
    SuffixesTile(c1, p1, c2, p2);
  }

  /** p1 ends c1, c2 is what precedes it, and p2 ends c2. */
  ghost predicate TileOf<T>(c1: seq<T>, p1: seq<T>, c2: seq<T>, p2: seq<T>) {
    && |p1| <= |c1| && p1 == c1[|c1| - |p1|..]
    && c2 == c1[..|c1| - |p1|]
    && |p2| <= |c2| && p2 == c2[|c2| - |p2|..]
  }

  lemma HistorySuffix(ms: seq<Message>, roomId: RoomId, limit: nat, before: Option<int>)
    requires Consecutive(RoomMessages(ms, roomId))
    ensures var c := HistoryCandidates(ms, roomId, before);
      var h := History(ms, roomId, limit, before);
      |h| <= |c| && h == c[|c| - |h|..]
  {
    HistoryIsNewestSuffix(ms, roomId, limit, before);
  }

  /** The end of what precedes a suffix, followed by that suffix, is a
      longer suffix. */
  lemma {:induction false} SuffixesTile<T>(c1: seq<T>, p1: seq<T>, c2: seq<T>, p2: seq<T>)
    requires TileOf(c1, p1, c2, p2)
    ensures |p1| + |p2| <= |c1| && p2 + p1 == c1[|c1| - (|p1| + |p2|)..]
  {
    SplitSuffix(c1, p2, p1, |c1| - |p1|);
  }

  // ---------------------------------------------------------------------
  // Read receipts and unread counts

  /** The messages markMessagesAsRead selects: those of the room numbered
      up to the bound. An absent room or bound places no constraint, as an
      undefined field of a query filter does. */
  predicate Selected(m: Message, roomId: Option<RoomId>, upTo: Option<int>) {
    (roomId.None? || m.roomId == roomId.value)
    && (upTo.None? || m.sequenceId <= upTo.value)
  }

  /** One step of the loop in markMessagesAsRead. */
  function MarkOne(m: Message, roomId: Option<RoomId>, userId: UserId, upTo: Option<int>): Message {
    if Selected(m, roomId, upTo) && userId !in m.readBy then m.(readBy := m.readBy + [userId]) else m
  }

  /** The messages after markMessagesAsRead: every selected message is read
      by the user, nothing else about any message changes. */
  function MarkedRead(ms: seq<Message>, roomId: Option<RoomId>, userId: UserId, upTo: Option<int>): (r: seq<Message>)
    ensures |r| == |ms|
  {
    if ms == [] then []
    else MarkedRead(ms[..|ms| - 1], roomId, userId, upTo) + [MarkOne(ms[|ms| - 1], roomId, userId, upTo)]
  }

  /** What marking does to each message: a selected message ends up read
      by the user, who is added once at the end of its readers when
      missing; nothing else about any message changes. */
  lemma {:induction false} MarkedReadShape(ms: seq<Message>, roomId: Option<RoomId>, userId: UserId, upTo: Option<int>)
    ensures var r := MarkedRead(ms, roomId, userId, upTo);
      forall k :: 0 <= k < |ms| ==>
        && r[k] == ms[k].(readBy := r[k].readBy)
        && (Selected(ms[k], roomId, upTo) ==> userId in r[k].readBy)
        && (r[k].readBy == ms[k].readBy || (r[k].readBy == ms[k].readBy + [userId] && userId !in ms[k].readBy))
        && (!Selected(ms[k], roomId, upTo) ==> r[k] == ms[k])
  {
    if ms != [] {
      MarkedReadShape(ms[..|ms| - 1], roomId, userId, upTo);
    }
  }

  lemma {:induction false} MarkedReadAppend(ms: seq<Message>, m: Message, roomId: Option<RoomId>, userId: UserId, upTo: Option<int>)
    ensures MarkedRead(ms + [m], roomId, userId, upTo) == MarkedRead(ms, roomId, userId, upTo) + [MarkOne(m, roomId, userId, upTo)]
  {
    assert (ms + [m])[..|ms|] == ms;
  }

  /** Marking twice marks nothing more. */
  lemma {:induction false} MarkedReadIdempotent(ms: seq<Message>, roomId: Option<RoomId>, userId: UserId, upTo: Option<int>)
    ensures MarkedRead(MarkedRead(ms, roomId, userId, upTo), roomId, userId, upTo)
         == MarkedRead(ms, roomId, userId, upTo)
  {
    if ms != [] {
      var init := ms[..|ms| - 1];
      MarkedReadIdempotent(init, roomId, userId, upTo);
      MarkedReadAppend(MarkedRead(init, roomId, userId, upTo), MarkOne(ms[|ms| - 1], roomId, userId, upTo), roomId, userId, upTo);
    }
  }

  /** A message of the room, not the user's own, that the user has not read. */
  predicate UnreadBy(m: Message, roomId: RoomId, userId: UserId) {
    m.roomId == roomId && m.senderId != userId && userId !in m.readBy
  }

  /** The unread count getUnreadCount is meant to return: the room's
      messages from others whose readBy does not contain the user. */
  function UnreadCount(ms: seq<Message>, roomId: RoomId, userId: UserId): (n: nat)
    ensures n <= |RoomMessages(ms, roomId)|
  {
    if ms == [] then 0
    else UnreadCount(ms[..|ms| - 1], roomId, userId) + (if UnreadBy(ms[|ms| - 1], roomId, userId) then 1 else 0)
  }

  /** A message the filter of getUnreadCount admits: from someone else,
      with readBy containing the user (and not equal to JSON true). */
  predicate CountedAsWritten(m: Message, roomId: RoomId, userId: UserId) {
    m.roomId == roomId && m.senderId != userId && userId in m.readBy
  }

  /** getUnreadCount as written: `array_contains` and `not` in one filter
      object are both required, so it counts messages the user HAS read. */
  function UnreadCountAsWritten(ms: seq<Message>, roomId: RoomId, userId: UserId): (n: nat)
    ensures n <= |RoomMessages(ms, roomId)|
  {
    if ms == [] then 0
    else UnreadCountAsWritten(ms[..|ms| - 1], roomId, userId) + (if CountedAsWritten(ms[|ms| - 1], roomId, userId) then 1 else 0)
  }

  /** Messages of the room sent by someone other than the user. */
  function FromOthers(ms: seq<Message>, roomId: RoomId, userId: UserId): nat {
    if ms == [] then 0
    else
      var last := ms[|ms| - 1];
      FromOthers(ms[..|ms| - 1], roomId, userId) + (if last.roomId == roomId && last.senderId != userId then 1 else 0)
  }

  /** The count as written is the complement of the intended one: together
      they count every message of the room from someone else. */
  lemma {:induction false} AsWrittenCountsTheRead(ms: seq<Message>, roomId: RoomId, userId: UserId)
    ensures UnreadCountAsWritten(ms, roomId, userId) + UnreadCount(ms, roomId, userId)
         == FromOthers(ms, roomId, userId)
  {
    if ms != [] {
      AsWrittenCountsTheRead(ms[..|ms| - 1], roomId, userId);
    }
  }

  /** Room 3 of the chat seed: three messages from David to Alice, the
      first read by Alice. Alice has two unread messages; the count as
      written reports one. */
  lemma SeedRoomThreeCounts()
    ensures var ms := [
        Message("m1", "room3", "david", "Hey Alice!", "text", 1, ["alice", "david"], 0),
        Message("m2", "room3", "david", "Are you free?", "text", 2, ["david"], 1),
        Message("m3", "room3", "david", "Call me", "text", 3, ["david"], 2)];
      UnreadCount(ms, "room3", "alice") == 2 && UnreadCountAsWritten(ms, "room3", "alice") == 1
  {
    var m1 := Message("m1", "room3", "david", "Hey Alice!", "text", 1, ["alice", "david"], 0);
    var m2 := Message("m2", "room3", "david", "Are you free?", "text", 2, ["david"], 1);
    var m3 := Message("m3", "room3", "david", "Call me", "text", 3, ["david"], 2);
    var ms := [m1, m2, m3];
    assert ms[..2] == [m1, m2] && [m1, m2][..1] == [m1] && [m1][..0] == [];
    assert "alice" in m1.readBy && "alice" !in m2.readBy && "alice" !in m3.readBy;
  }

  /** Messages of the room from others that are unread and not selected. */
  function UnreadUnselected(ms: seq<Message>, r: RoomId, userId: UserId, roomId: Option<RoomId>, upTo: Option<int>): nat {
    if ms == [] then 0
    else
      var last := ms[|ms| - 1];
      UnreadUnselected(ms[..|ms| - 1], r, userId, roomId, upTo) + (if UnreadBy(last, r, userId) && !Selected(last, roomId, upTo) then 1 else 0)
  }

  /** After marking, the user's unread messages are exactly those that
      were unread and not selected. */
  lemma {:induction false} MarkedReadUnread(ms: seq<Message>, roomId: Option<RoomId>, userId: UserId, upTo: Option<int>, r: RoomId)
    ensures UnreadCount(MarkedRead(ms, roomId, userId, upTo), r, userId) == UnreadUnselected(ms, r, userId, roomId, upTo)
  {
    if ms != [] {
      var init := ms[..|ms| - 1];
      MarkedReadUnread(init, roomId, userId, upTo, r);
      var after := MarkedRead(ms, roomId, userId, upTo);
      assert after[..|ms| - 1] == MarkedRead(init, roomId, userId, upTo);
    }
  }

  /** Marking for one user leaves every other user's unread count alone. */
  lemma {:induction false} MarkingSparesOthers(ms: seq<Message>, roomId: Option<RoomId>, userId: UserId, upTo: Option<int>, r: RoomId, other: UserId)
    requires other != userId
    ensures UnreadCount(MarkedRead(ms, roomId, userId, upTo), r, other) == UnreadCount(ms, r, other)
  {
    if ms != [] {
      var init := ms[..|ms| - 1];
      MarkingSparesOthers(init, roomId, userId, upTo, r, other);
      var after := MarkedRead(ms, roomId, userId, upTo);
      assert after[..|ms| - 1] == MarkedRead(init, roomId, userId, upTo);
    }
  }

  /** Marking a room read up to a number at least as high as any of its
      messages leaves the user nothing unread there. */
  lemma {:induction false} MarkingToTheEndClearsUnread(ms: seq<Message>, r: RoomId, userId: UserId, upTo: int)
    requires forall k :: 0 <= k < |ms| && ms[k].roomId == r ==> ms[k].sequenceId <= upTo
    ensures UnreadCount(MarkedRead(ms, Some(r), userId, Some(upTo)), r, userId) == 0
  {
    MarkedReadUnread(ms, Some(r), userId, Some(upTo), r);
    NothingUnselected(ms, r, userId, upTo);
  }

  lemma {:induction false} NothingUnselected(ms: seq<Message>, r: RoomId, userId: UserId, upTo: int)
    requires forall k :: 0 <= k < |ms| && ms[k].roomId == r ==> ms[k].sequenceId <= upTo
    ensures UnreadUnselected(ms, r, userId, Some(r), Some(upTo)) == 0
  {
    if ms != [] {
      NothingUnselected(ms[..|ms| - 1], r, userId, upTo);
    }
  }

  // ---------------------------------------------------------------------
  // Room list

  /** One entry of getUserRooms: the room, its highest-numbered message and
      the user's unread count there. */
  datatype RoomSummary = RoomSummary(room: Room, lastMessage: Option<Message>, unreadCount: nat)

  predicate Participant(r: Room, userId: UserId) {
    r.user1Id == Some(userId) || r.user2Id == Some(userId)
  }

  /** The rooms holding the user in either column, in storage order. */
  function RoomsOf(rooms: seq<Room>, userId: UserId): (r: seq<Room>)
    ensures forall k :: 0 <= k < |r| ==> Participant(r[k], userId)
  {
    if rooms == [] then []
    else
      var last := rooms[|rooms| - 1];
      RoomsOf(rooms[..|rooms| - 1], userId) + (if Participant(last, userId) then [last] else [])
  }

  lemma {:induction false} RoomsOfComplete(rooms: seq<Room>, userId: UserId)
    ensures forall k :: 0 <= k < |rooms| && Participant(rooms[k], userId) ==> rooms[k] in RoomsOf(rooms, userId)
  {
    if rooms != [] {
      RoomsOfComplete(rooms[..|rooms| - 1], userId);
      forall k | 0 <= k < |rooms| - 1 && Participant(rooms[k], userId)
        ensures rooms[k] in RoomsOf(rooms, userId)
      {
        assert rooms[..|rooms| - 1][k] == rooms[k];
      }
    }
  }

  /** Newest activity first; a room that never had a message sorts last. */
  function RecencyKey(r: Room): int {
    if r.lastMessageAt.Some? then r.lastMessageAt.value else -1
  }

  /** The room's message with the highest sequence number, if any. */
  function LastMessage(ms: seq<Message>, roomId: RoomId): (r: Option<Message>)
    ensures r.Some? <==> RoomMessages(ms, roomId) != []
  {
    var rm := RoomMessages(ms, roomId);
    if rm == [] then None else Some(SortDescBy(rm, SeqKey)[0])
  }

  /** The last message is one of the room's, numbered at least as high as
      every other. */
  lemma LastMessageIsNewest(ms: seq<Message>, roomId: RoomId)
    requires LastMessage(ms, roomId).Some?
    ensures var m := LastMessage(ms, roomId).value;
      var rm := RoomMessages(ms, roomId);
      && m in rm && m.roomId == roomId
      && forall k :: 0 <= k < |rm| ==> rm[k].sequenceId <= m.sequenceId
  {
    var rm := RoomMessages(ms, roomId);
    var sorted := SortDescBy(rm, SeqKey);
    SortDescBySorted(rm, SeqKey);
    SortDescByPermutes(rm, SeqKey);
    assert sorted[0] in multiset(rm);
    forall k | 0 <= k < |rm| ensures rm[k].sequenceId <= sorted[0].sequenceId {
      assert rm[k] in multiset(sorted);
      var j :| 0 <= j < |sorted| && sorted[j] == rm[k];
    }
  }

  /** getUserRooms: the user's rooms, most recent activity first, each with
      its last message and the user's unread count. */
  function UserRooms(rooms: seq<Room>, ms: seq<Message>, userId: UserId): (r: seq<RoomSummary>)
    ensures |r| == |RoomsOf(rooms, userId)|
    ensures forall k :: 0 <= k < |r| ==> Participant(r[k].room, userId)
    ensures forall i, j :: 0 <= i < j < |r| ==> RecencyKey(r[i].room) >= RecencyKey(r[j].room)
    ensures forall k :: 0 <= k < |r| ==>
      r[k].lastMessage == LastMessage(ms, r[k].room.id)
      && r[k].unreadCount == UnreadCount(ms, r[k].room.id, userId)
  {
    var mine := RoomsOf(rooms, userId);
    var sorted := SortDescBy(mine, RecencyKey);
    SortDescBySorted(mine, RecencyKey);
    SortDescByMembers(mine, RecencyKey);
    seq(|sorted|, k requires 0 <= k < |sorted| =>
      RoomSummary(sorted[k], LastMessage(ms, sorted[k].id), UnreadCount(ms, sorted[k].id, userId)))
  }

  /** Every room of the user is listed, exactly as often as it is stored. */
  lemma {:induction false} UserRoomsComplete(rooms: seq<Room>, ms: seq<Message>, userId: UserId)
    ensures var r := UserRooms(rooms, ms, userId);
      multiset(seq(|r|, k requires 0 <= k < |r| => r[k].room)) == multiset(RoomsOf(rooms, userId))
  {
    var mine := RoomsOf(rooms, userId);
    SortDescByPermutes(mine, RecencyKey);
    var r := UserRooms(rooms, ms, userId);
    assert seq(|r|, k requires 0 <= k < |r| => r[k].room) == SortDescBy(mine, RecencyKey);
  }

  // ---------------------------------------------------------------------
  // Pruning

  /** The ids cleanupOldMessages deletes: the room's messages past the
      first `keepLast` in descending sequence order. */
  function DoomedIds(ms: seq<Message>, roomId: RoomId, keepLast: nat): set<MessageId> {
    var newest := SortDescBy(RoomMessages(ms, roomId), SeqKey);
    set k | keepLast <= k < |newest| :: newest[k].id
  }

  /** The messages whose id is not among `ids`, in storage order. */
  function WithoutIds(ms: seq<Message>, ids: set<MessageId>): (r: seq<Message>)
    ensures |r| <= |ms|
    ensures forall k :: 0 <= k < |r| ==> r[k].id !in ids
  {
    if ms == [] then []
    else
      var last := ms[|ms| - 1];
      WithoutIds(ms[..|ms| - 1], ids) + (if last.id in ids then [] else [last])
  }

  lemma {:induction false} WithoutIdsFrom(ms: seq<Message>, ids: set<MessageId>)
    ensures forall k :: 0 <= k < |WithoutIds(ms, ids)| ==> WithoutIds(ms, ids)[k] in ms
  {
    if ms != [] {
      WithoutIdsFrom(ms[..|ms| - 1], ids);
    }
  }

  lemma {:induction false} WithoutIdsNoop(ms: seq<Message>, ids: set<MessageId>)
    requires forall k :: 0 <= k < |ms| ==> ms[k].id !in ids
    ensures WithoutIds(ms, ids) == ms
  {
    if ms != [] {
      WithoutIdsNoop(ms[..|ms| - 1], ids);
      assert ms == ms[..|ms| - 1] + [ms[|ms| - 1]];
    }
  }

  /** Deleting exactly the ids of the first j messages leaves the rest. */
  lemma {:induction false} WithoutLeadingIds(ms: seq<Message>, ids: set<MessageId>, j: nat)
    requires j <= |ms|
    requires forall k :: 0 <= k < |ms| ==> (ms[k].id in ids <==> k < j)
    ensures WithoutIds(ms, ids) == ms[j..]
  {
    if ms != [] {
      var init := ms[..|ms| - 1];
      if j == |ms| {
        WithoutLeadingIds(init, ids, |init|);
      } else {
        WithoutLeadingIds(init, ids, j);
        assert ms[j..] == init[j..] + [ms[|ms| - 1]];
      }
    }
  }

  /** Filtering by id and by room commute. */
  lemma {:induction false} RoomMessagesWithout(ms: seq<Message>, ids: set<MessageId>, roomId: RoomId)
    ensures RoomMessages(WithoutIds(ms, ids), roomId) == WithoutIds(RoomMessages(ms, roomId), ids)
  {
    if ms != [] {
      var init := ms[..|ms| - 1];
      var last := ms[|ms| - 1];
      RoomMessagesWithout(init, ids, roomId);
      assert ms == init + [last];
      var ri := RoomMessages(init, roomId);
      var wi := WithoutIds(init, ids);
      assert RoomMessages(ms, roomId) == ri + (if last.roomId == roomId then [last] else []);
      assert WithoutIds(ms, ids) == wi + (if last.id in ids then [] else [last]);
      if last.id !in ids {
        RoomMessagesAppend(wi, last, roomId);
      }
      if last.roomId == roomId {
        assert (ri + [last])[..|ri|] == ri;
        assert WithoutIds(ri + [last], ids) == WithoutIds(ri, ids) + (if last.id in ids then [] else [last]);
        if last.id in ids {
          assert WithoutIds(ri + [last], ids) == WithoutIds(ri, ids);
          assert WithoutIds(ms, ids) == wi;
        } else {
          assert RoomMessages(wi + [last], roomId) == RoomMessages(wi, roomId) + [last];
        }
      } else {
        assert RoomMessages(ms, roomId) == ri;
        if last.id !in ids {
          assert RoomMessages(wi + [last], roomId) == RoomMessages(wi, roomId) + [];
        } else {
          assert WithoutIds(ms, ids) == wi;
        }
      }
    }
  }

  lemma {:induction false} RoomMessagesFrom(ms: seq<Message>, roomId: RoomId)
    ensures forall k :: 0 <= k < |RoomMessages(ms, roomId)| ==> RoomMessages(ms, roomId)[k] in ms
  {
    if ms != [] {
      RoomMessagesFrom(ms[..|ms| - 1], roomId);
    }
  }

  /** With unique ids, two stored messages with the same id are one. */
  lemma SameIdSameMessage(ms: seq<Message>, a: Message, b: Message)
    requires UniqueIds(ms)
    requires a in ms && b in ms && a.id == b.id
    ensures a == b
  {
    var i :| 0 <= i < |ms| && ms[i] == a;
    var j :| 0 <= j < |ms| && ms[j] == b;
    assert i == j;
  }

  lemma IdsDistinguish(ms: seq<Message>, a: Message, b: Message)
    requires UniqueIds(ms)
    requires a in ms && b in ms
    ensures a.id == b.id ==> a == b
  {
    if a.id == b.id {
      SameIdSameMessage(ms, a, b);
    }
  }

  lemma {:induction false} IdsOfReversedTail(rm: seq<Message>, keepLast: nat)
    ensures (set k | keepLast <= k < |rm| :: Reverse(rm)[k].id)
      == set i | 0 <= i < |rm| - |Take(rm, keepLast)| :: rm[i].id
  {
    var n := |rm|;
    var newest := Reverse(rm);
    ReverseAt(rm);
    var j := n - |Take(rm, keepLast)|;
    var lhs := set k | keepLast <= k < n :: newest[k].id;
    var rhs := set i | 0 <= i < j :: rm[i].id;
    forall x | x in lhs ensures x in rhs {
      var k :| keepLast <= k < n && newest[k].id == x;
      assert newest[k] == rm[n - 1 - k];
    }
    forall x | x in rhs ensures x in lhs {
      var i :| 0 <= i < j && rm[i].id == x;
      assert newest[n - 1 - i] == rm[i];
    }
    assert lhs == rhs;
  }

  /** The deleted ids are those of the oldest messages of the room, all
      but the newest `keepLast`. */
  lemma {:induction false} DoomedAreOldest(ms: seq<Message>, roomId: RoomId, keepLast: nat)
    requires StrictlyAscending(RoomMessages(ms, roomId))
    ensures var rm := RoomMessages(ms, roomId);
      DoomedIds(ms, roomId, keepLast) == set i | 0 <= i < |rm| - |Take(rm, keepLast)| :: rm[i].id
  {
    var rm := RoomMessages(ms, roomId);
    SortDescOfAscending(rm, SeqKey);
    IdsOfReversedTail(rm, keepLast);
  }

  /** cleanupOldMessages keeps exactly the newest `keepLast` messages of
      the room, in order. */
  lemma {:induction false} CleanupKeepsNewest(ms: seq<Message>, roomId: RoomId, keepLast: nat)
    requires UniqueIds(ms)
    requires Consecutive(RoomMessages(ms, roomId))
    ensures var rm := RoomMessages(ms, roomId);
      RoomMessages(WithoutIds(ms, DoomedIds(ms, roomId, keepLast)), roomId) == rm[|rm| - |Take(rm, keepLast)|..]
  {
    var rm := RoomMessages(ms, roomId);
    var ids := DoomedIds(ms, roomId, keepLast);
    var j := |rm| - |Take(rm, keepLast)|;
    ConsecutiveAscending(rm);
    DoomedAreOldest(ms, roomId, keepLast);
    RoomMessagesFrom(ms, roomId);
    RoomMessagesWithout(ms, ids, roomId);
    forall k | 0 <= k < |rm| ensures rm[k].id in ids <==> k < j {
      if rm[k].id in ids {
        var i :| 0 <= i < j && rm[i].id == rm[k].id;
        SameIdSameMessage(ms, rm[i], rm[k]);
      }
    }
    WithoutLeadingIds(rm, ids, j);
  }

  /** cleanupOldMessages leaves every other room untouched. */
  lemma {:induction false} CleanupSparesOtherRooms(ms: seq<Message>, roomId: RoomId, keepLast: nat, other: RoomId)
    requires UniqueIds(ms)
    requires other != roomId
    ensures RoomMessages(WithoutIds(ms, DoomedIds(ms, roomId, keepLast)), other) == RoomMessages(ms, other)
  {
    var ids := DoomedIds(ms, roomId, keepLast);
    var rm := RoomMessages(ms, roomId);
    var ro := RoomMessages(ms, other);
    RoomMessagesFrom(ms, roomId);
    RoomMessagesFrom(ms, other);
    SortDescByMembers(rm, SeqKey);
    RoomMessagesWithout(ms, ids, other);
    var newest := SortDescBy(rm, SeqKey);
    forall k, i | 0 <= k < |ro| && keepLast <= i < |newest| ensures newest[i].id != ro[k].id {
      IdsDistinguish(ms, newest[i], ro[k]);
    }
    WithoutIdsNoop(ro, ids);
  }

  // ---------------------------------------------------------------------
  // The store keeps its invariant

  /** Deleting by id keeps the remaining ids unique. */
  lemma {:induction false} WithoutIdsUnique(ms: seq<Message>, ids: set<MessageId>)
    requires UniqueIds(ms)
    ensures UniqueIds(WithoutIds(ms, ids))
  {
    if ms != [] {
      var init := ms[..|ms| - 1];
      var last := ms[|ms| - 1];
      assert ms == init + [last];
      WithoutIdsUnique(init, ids);
      WithoutIdsFrom(init, ids);
      var w := WithoutIds(init, ids);
      forall k | 0 <= k < |w| ensures w[k].id != last.id {
        var i :| 0 <= i < |init| && init[i] == w[k];
        assert ms[i] == init[i];
      }
    }
  }

  /** The messages of one room agree, position by position, except for
      who has read them. */
  ghost predicate SameButReadBy(a: seq<Message>, b: seq<Message>) {
    |a| == |b| && forall k :: 0 <= k < |a| ==> a[k] == b[k].(readBy := a[k].readBy)
  }

  /** Marking messages read changes no room's message list but for readers. */
  lemma {:induction false} RoomMessagesMarked(ms: seq<Message>, roomId: Option<RoomId>, userId: UserId, upTo: Option<int>, r: RoomId)
    ensures SameButReadBy(RoomMessages(MarkedRead(ms, roomId, userId, upTo), r), RoomMessages(ms, r))
  {
    if ms != [] {
      var init := ms[..|ms| - 1];
      var last := ms[|ms| - 1];
      assert ms == init + [last];
      var mi := MarkedRead(init, roomId, userId, upTo);
      var mo := MarkOne(last, roomId, userId, upTo);
      MarkedReadAppend(init, last, roomId, userId, upTo);
      RoomMessagesMarked(init, roomId, userId, upTo, r);
      RoomMessagesAppend(mi, mo, r);
      RoomMessagesAppend(init, last, r);
      if last.roomId == r {
        SameButReadByAppend(RoomMessages(mi, r), RoomMessages(init, r), mo, last);
      }
    }
  }

  lemma {:induction false} SameButReadByAppend(a: seq<Message>, b: seq<Message>, x: Message, y: Message)
    requires SameButReadBy(a, b)
    requires x == y.(readBy := x.readBy)
    ensures SameButReadBy(a + [x], b + [y])
  {
    var a', b' := a + [x], b + [y];
    forall k | 0 <= k < |a'| ensures a'[k] == b'[k].(readBy := a'[k].readBy) {
      if k < |a| {
        assert a'[k] == a[k] && b'[k] == b[k];
      }
    }
  }

  lemma {:induction false} ConsecutiveSameButReadBy(a: seq<Message>, b: seq<Message>)
    requires SameButReadBy(a, b)
    requires Consecutive(b)
    ensures Consecutive(a)
    ensures a != [] ==> a[0].sequenceId == b[0].sequenceId
  {
    assert forall k :: 0 <= k < |a| ==> a[k].sequenceId == b[k].sequenceId;
  }

  /** markMessagesAsRead keeps the store's invariant. */
  lemma {:induction false} MarkedReadValid(rooms: seq<Room>, ms: seq<Message>, pruned: set<RoomId>,
                                           roomId: Option<RoomId>, userId: UserId, upTo: Option<int>)
    requires MessagesValid(rooms, ms, pruned)
    ensures MessagesValid(rooms, MarkedRead(ms, roomId, userId, upTo), pruned)
  {
    var mr := MarkedRead(ms, roomId, userId, upTo);
    MarkedReadShape(ms, roomId, userId, upTo);
    assert forall k :: 0 <= k < |ms| ==> mr[k].id == ms[k].id && mr[k].roomId == ms[k].roomId;
    forall k | 0 <= k < |mr| ensures mr[k].senderId in mr[k].readBy && NoDuplicates(mr[k].readBy) {
      assert mr[k].readBy == ms[k].readBy || mr[k].readBy == ms[k].readBy + [userId];
    }
    forall r ensures Consecutive(RoomMessages(mr, r))
      && (r !in pruned && RoomMessages(mr, r) != [] ==> RoomMessages(mr, r)[0].sequenceId == 1)
    {
      RoomMessagesMarked(ms, roomId, userId, upTo, r);
      ConsecutiveSameButReadBy(RoomMessages(mr, r), RoomMessages(ms, r));
    }
  }

  /** Appending the next message of a room keeps its numbers consecutive. */
  lemma {:induction false} ConsecutiveAppend(rm: seq<Message>, m: Message)
    requires Consecutive(rm)
    requires m.sequenceId == (if rm == [] then 1 else rm[|rm| - 1].sequenceId + 1)
    ensures Consecutive(rm + [m])
    ensures (rm + [m])[0].sequenceId == (if rm == [] then 1 else rm[0].sequenceId)
  {
  }

  /** cleanupOldMessages keeps the store's invariant, the pruned room now
      being one whose numbering may start above 1. */
  lemma {:induction false} CleanupValid(rooms: seq<Room>, ms: seq<Message>, pruned: set<RoomId>, roomId: RoomId, keepLast: nat)
    requires MessagesValid(rooms, ms, pruned)
    ensures MessagesValid(rooms, WithoutIds(ms, DoomedIds(ms, roomId, keepLast)), pruned + {roomId})
  {
    var ids := DoomedIds(ms, roomId, keepLast);
    var after := WithoutIds(ms, ids);
    WithoutIdsUnique(ms, ids);
    WithoutIdsFrom(ms, ids);
    forall k | 0 <= k < |after|
      ensures after[k].roomId in RoomIds(rooms)
      ensures after[k].senderId in after[k].readBy && NoDuplicates(after[k].readBy)
    {
      var i :| 0 <= i < |ms| && ms[i] == after[k];
    }
    forall r ensures Consecutive(RoomMessages(after, r))
      && (r !in pruned + {roomId} && RoomMessages(after, r) != [] ==> RoomMessages(after, r)[0].sequenceId == 1)
    {
      if r == roomId {
        var rm := RoomMessages(ms, roomId);
        CleanupKeepsNewest(ms, roomId, keepLast);
        ConsecutiveSuffix(rm, |rm| - |Take(rm, keepLast)|);
      } else {
        CleanupSparesOtherRooms(ms, roomId, keepLast, r);
      }
    }
  }

  function MessageIds(ms: seq<Message>): set<MessageId> {
    set k | 0 <= k < |ms| :: ms[k].id
  }

  lemma {:induction false} UniqueAppend(ms: seq<Message>, m: Message)
    requires UniqueIds(ms)
    requires m.id !in MessageIds(ms)
    ensures UniqueIds(ms + [m])
  {
    var ms' := ms + [m];
    forall i, j | 0 <= i < j < |ms'| ensures ms'[i].id != ms'[j].id {
      if j == |ms| {
        assert ms'[i].id in MessageIds(ms);
      } else {
        assert ms'[i] == ms[i] && ms'[j] == ms[j];
      }
    }
  }

  lemma {:induction false} InRoomsAppend(ms: seq<Message>, m: Message, ids: set<RoomId>)
    requires forall k :: 0 <= k < |ms| ==> ms[k].roomId in ids
    requires m.roomId in ids
    ensures forall k :: 0 <= k < |ms + [m]| ==> (ms + [m])[k].roomId in ids
  {
    forall k | 0 <= k < |ms + [m]| ensures (ms + [m])[k].roomId in ids {
      if k < |ms| {
        assert (ms + [m])[k] == ms[k];
      }
    }
  }

  /** createMessage keeps the store's invariant: the new message carries a
      fresh id, the room's next number and its sender as first reader. */
  lemma {:induction false} AppendValid(rooms: seq<Room>, ms: seq<Message>, pruned: set<RoomId>, idx: nat, m: Message, at: nat)
    requires RoomsValid(rooms) && MessagesValid(rooms, ms, pruned)
    requires idx < |rooms| && m.roomId == rooms[idx].id
    requires m.id !in MessageIds(ms)
    requires m.sequenceId == NextSequenceId(ms, m.roomId)
    requires m.readBy == [m.senderId]
    ensures var t := rooms[idx := rooms[idx].(lastMessageAt := Some(at), lastMessageText := Some(Prefix(m.content, PreviewLength)))];
      RoomsValid(t) && MessagesValid(t, ms + [m], pruned)
  {
    var t := rooms[idx := rooms[idx].(lastMessageAt := Some(at), lastMessageText := Some(Prefix(m.content, PreviewLength)))];
    TouchKeepsRooms(rooms, idx, at, Prefix(m.content, PreviewLength));
    var ms' := ms + [m];
    UniqueAppend(ms, m);
    InRoomsAppend(ms, m, RoomIds(t));
    AppendNumbered(ms, m, pruned);
  }

  /** Appending a room's next message keeps every room numbered. */
  lemma {:induction false} AppendNumbered(ms: seq<Message>, m: Message, pruned: set<RoomId>)
    requires Numbered(ms, pruned)
    requires m.sequenceId == NextSequenceId(ms, m.roomId)
    ensures Numbered(ms + [m], pruned)
  {
    var ms' := ms + [m];
    forall r ensures Consecutive(RoomMessages(ms', r))
      && (r !in pruned && RoomMessages(ms', r) != [] ==> RoomMessages(ms', r)[0].sequenceId == 1)
    {
      RoomMessagesAppend(ms, m, r);
      if r == m.roomId {
        NextSequenceIdFollowsLast(ms, r);
        ConsecutiveAppend(RoomMessages(ms, r), m);
      }
    }
  }

  /** The database of services/messageService.ts: rooms and messages in
      insertion order, and the ids of the user and call tables that their
      foreign keys refer to (those tables are not changed here). `pruned`
      records, for the proofs only, the rooms cleanupOldMessages thinned. */
  class MessageService {
    var rooms: seq<Room>
    var messages: seq<Message>
    const users: set<UserId>
    const calls: set<string>
    ghost var pruned: set<RoomId>

    ghost predicate Valid()
      reads this
    {
      RoomsValid(rooms) && MessagesValid(rooms, messages, pruned)
    }

    constructor(users: set<UserId>, calls: set<string>)
      ensures Valid()
      ensures rooms == [] && messages == []
      ensures this.users == users && this.calls == calls
    {
      this.users := users;
      this.calls := calls;
      rooms := [];
      messages := [];
      pruned := {};
    }

    /** getOrCreateDirectRoom: the direct room of the two users, created
        with the sorted pair when there is none; creating one for an id
        that is no user fails on the foreign key and writes nothing. */
    method GetOrCreateDirectRoom(user1Id: UserId, user2Id: UserId) returns (r: Result<Room, StoreError>)
      requires Valid()
      modifies this
      ensures Valid()
      ensures messages == old(messages) && pruned == old(pruned)
      ensures r.Ok? ==> IsDirectBetween(r.value, user1Id, user2Id)
      ensures old(FindDirectRoom(rooms, user1Id, user2Id)).Some? ==>
        rooms == old(rooms) && r == Ok(rooms[old(FindDirectRoom(rooms, user1Id, user2Id)).value])
      ensures old(FindDirectRoom(rooms, user1Id, user2Id)).None? && !(user1Id in users && user2Id in users) ==>
        r == Err(UserNotFound) && rooms == old(rooms)
      ensures old(FindDirectRoom(rooms, user1Id, user2Id)).None? && user1Id in users && user2Id in users ==>
        && r.Ok?
        && var room := r.value;
        rooms == old(rooms) + [room]
        && room.id !in RoomIds(old(rooms))
        && room.user1Id == Some(SortPair(user1Id, user2Id).0)
        && room.user2Id == Some(SortPair(user1Id, user2Id).1)
        && room.callId.None? && room.lastMessageAt.None? && room.lastMessageText.None?
      ensures r.Ok? <==> FindDirectRoom(rooms, user1Id, user2Id).Some?
      ensures r.Ok? ==> rooms[FindDirectRoom(rooms, user1Id, user2Id).value] == r.value
      ensures r.Err? ==> r.error == UserNotFound && rooms == old(rooms)
    {
      var found := FindDirectRoom(rooms, user1Id, user2Id);
      if found.Some? {
        r := Ok(rooms[found.value]);
      } else if !(user1Id in users && user2Id in users) {
        r := Err(UserNotFound);
      } else {
        var p := SortPair(user1Id, user2Id);
        var id := FreshId(RoomIds(rooms));
        var room := Room(id, Direct, Some(p.0), Some(p.1), None, None, None);
        var old_rooms := rooms;
        rooms := rooms + [room];
        RoomIdsAppend(old_rooms, room);
        forall i | 0 <= i < |old_rooms| ensures !SameDirectPair(old_rooms[i], room) {
          assert !IsDirectBetween(old_rooms[i], user1Id, user2Id);
        }
        forall i | 0 <= i < |old_rooms| ensures old_rooms[i].id != id {
          assert old_rooms[i].id in RoomIds(old_rooms);
        }
        FindAppended(old_rooms, room, user1Id, user2Id);
        r := Ok(room);
      }
    }

    /** getOrCreateCallRoom: the room attached to the call, created when
        there is none; creating one for an unknown call fails on the
        foreign key and writes nothing. */
    method GetOrCreateCallRoom(callId: string) returns (r: Result<Room, StoreError>)
      requires Valid()
      modifies this
      ensures Valid()
      ensures r.Ok? ==> r.value.callId == Some(callId)
      ensures messages == old(messages) && pruned == old(pruned)
      ensures old(FindCallRoom(rooms, callId)).Some? ==>
        rooms == old(rooms) && r == Ok(rooms[old(FindCallRoom(rooms, callId)).value])
      ensures old(FindCallRoom(rooms, callId)).None? && callId !in calls ==>
        r == Err(CallNotFound) && rooms == old(rooms)
      ensures old(FindCallRoom(rooms, callId)).None? && callId in calls ==>
        && r.Ok?
        && var room := r.value;
        rooms == old(rooms) + [room]
        && room.id !in RoomIds(old(rooms))
        && room.kind == Call && room.user1Id.None? && room.user2Id.None?
        && room.lastMessageAt.None? && room.lastMessageText.None?
      ensures r.Ok? ==>
        FindCallRoom(rooms, callId).Some? && rooms[FindCallRoom(rooms, callId).value] == r.value
    {
      var found := FindCallRoom(rooms, callId);
      if found.Some? {
        r := Ok(rooms[found.value]);
      } else if callId !in calls {
        r := Err(CallNotFound);
      } else {
        var id := FreshId(RoomIds(rooms));
        var room := Room(id, Call, None, None, Some(callId), None, None);
        var old_rooms := rooms;
        rooms := rooms + [room];
        RoomIdsAppend(old_rooms, room);
        forall i | 0 <= i < |old_rooms| ensures old_rooms[i].id != id {
          assert old_rooms[i].id in RoomIds(old_rooms);
        }
        FindCallAppended(old_rooms, room, callId);
        r := Ok(room);
      }
    }

    /** createMessage: the room's next number, the sender as first reader,
        and the room's preview updated; a missing room or sender is refused
        by the message's foreign keys and nothing is written. */
    method CreateMessage(roomId: RoomId, senderId: UserId, content: string, kind: string, now: nat)
      returns (r: Result<Message, StoreError>)
      requires Valid()
      modifies this
      ensures Valid()
      ensures pruned == old(pruned)
      ensures old(FindRoom(rooms, roomId)).None? ==>
        r == Err(RoomNotFound) && rooms == old(rooms) && messages == old(messages)
      ensures old(FindRoom(rooms, roomId)).Some? && senderId !in users ==>
        r == Err(UserNotFound) && rooms == old(rooms) && messages == old(messages)
      ensures old(FindRoom(rooms, roomId)).Some? && senderId in users ==>
        && r.Ok?
        && r.value.roomId == roomId && r.value.senderId == senderId
        && r.value.content == content && r.value.kind == kind && r.value.createdAt == now
        && r.value.sequenceId == old(NextSequenceId(messages, roomId))
        && r.value.readBy == [senderId]
        && r.value.id !in old(MessageIds(messages))
        && messages == old(messages) + [r.value]
        && var idx := old(FindRoom(rooms, roomId)).value;
           rooms == old(rooms)[idx := old(rooms)[idx].(lastMessageAt := Some(now),
                                                       lastMessageText := Some(Prefix(content, PreviewLength)))]
    {
      var found := FindRoom(rooms, roomId);
      if found.None? {
        return Err(RoomNotFound);
      }
      if senderId !in users {
        return Err(UserNotFound);
      }
      var idx := found.value;
      var id := FreshId(MessageIds(messages));
      var m := Message(id, roomId, senderId, content, kind, NextSequenceId(messages, roomId), [senderId], now);
      AppendValid(rooms, messages, pruned, idx, m, now);
      messages := messages + [m];
      rooms := rooms[idx := rooms[idx].(lastMessageAt := Some(now), lastMessageText := Some(Prefix(content, PreviewLength)))];
      r := Ok(m);
    }

    /** markMessagesAsRead: one pass over the stored messages, adding the
        user to the readers of each selected message not yet read. */
    method MarkMessagesAsRead(roomId: Option<RoomId>, userId: UserId, upTo: Option<int>)
      requires Valid()
      modifies this
      ensures Valid()
      ensures messages == MarkedRead(old(messages), roomId, userId, upTo)
      ensures rooms == old(rooms) && pruned == old(pruned)
    {
      var marked := MarkAll(messages, roomId, userId, upTo);
      MarkedReadValid(rooms, messages, pruned, roomId, userId, upTo);
      messages := marked;
    }

    /** cleanupOldMessages: deletes the room's messages past the newest
        `keepLast`; when there are none to delete nothing is written. */
    method CleanupOldMessages(roomId: RoomId, keepLast: nat)
      requires Valid()
      modifies this
      ensures Valid()
      ensures rooms == old(rooms)
      ensures messages == WithoutIds(old(messages), DoomedIds(old(messages), roomId, keepLast))
      ensures DoomedIds(old(messages), roomId, keepLast) == {} ==> messages == old(messages)
    {
      var ids := DoomedIds(messages, roomId, keepLast);
      if ids != {} {
        CleanupValid(rooms, messages, pruned, roomId, keepLast);
        messages := WithoutIds(messages, ids);
        pruned := pruned + {roomId};
      } else {
        WithoutIdsNoop(messages, ids);
      }
    }
  }

  /** The loop of markMessagesAsRead over the rows: each selected row the
      user has not read gets the user appended to its readers. */
  method MarkAll(ms: seq<Message>, roomId: Option<RoomId>, userId: UserId, upTo: Option<int>)
    returns (r: seq<Message>)
    ensures r == MarkedRead(ms, roomId, userId, upTo)
  {
    r := ms;
    var i := 0;
    while i < |ms|
      invariant i <= |ms|
      invariant r == Marking(ms, i, roomId, userId, upTo)
    {
      MarkStep(ms, i, roomId, userId, upTo);
      var m := r[i];
      if Selected(m, roomId, upTo) && userId !in m.readBy {
        r := r[i := m.(readBy := m.readBy + [userId])];
      }
      i := i + 1;
    }
    MarkingDone(ms, roomId, userId, upTo);
  }

  /** The messages while markMessagesAsRead is at position i: those
      before it marked, the rest as they were. */
  function Marking(ms: seq<Message>, i: nat, roomId: Option<RoomId>, userId: UserId, upTo: Option<int>): (r: seq<Message>)
    requires i <= |ms|
    ensures |r| == |ms|
  {
    MarkedRead(ms[..i], roomId, userId, upTo) + ms[i..]
  }

  /** One iteration of the loop in markMessagesAsRead. */
  lemma {:induction false} MarkStep(ms: seq<Message>, i: nat, roomId: Option<RoomId>, userId: UserId, upTo: Option<int>)
    requires i < |ms|
    ensures var r := Marking(ms, i, roomId, userId, upTo);
      && r[i] == ms[i]
      && Marking(ms, i + 1, roomId, userId, upTo) == r[i := MarkOne(r[i], roomId, userId, upTo)]
  {
    assert ms[..i + 1] == ms[..i] + [ms[i]];
    MarkedReadAppend(ms[..i], ms[i], roomId, userId, upTo);
  }

  lemma MarkingDone(ms: seq<Message>, roomId: Option<RoomId>, userId: UserId, upTo: Option<int>)
    ensures Marking(ms, |ms|, roomId, userId, upTo) == MarkedRead(ms, roomId, userId, upTo)
  {
    assert ms[..|ms|] == ms;
  }

  lemma {:induction false} FindAppended(rooms: seq<Room>, room: Room, a: UserId, b: UserId)
    requires FindDirectRoom(rooms, a, b).None?
    requires IsDirectBetween(room, a, b)
    ensures FindDirectRoom(rooms + [room], a, b) == Some(|rooms|)
  {
    var p := SortPair(a, b);
    var rs := rooms + [room];
    var f := FindDirectRoom(rs, a, b);
    assert IsDirectBetween(rs[|rooms|], p.0, p.1);
    assert forall k :: 0 <= k < |rooms| ==> rs[k] == rooms[k];
  }

  lemma {:induction false} FindCallAppended(rooms: seq<Room>, room: Room, callId: string)
    requires FindCallRoom(rooms, callId).None?
    requires room.callId == Some(callId)
    ensures FindCallRoom(rooms + [room], callId) == Some(|rooms|)
  {
    var rs := rooms + [room];
    var f := FindCallRoom(rs, callId);
    assert rs[|rooms|].callId == Some(callId);
    assert forall k :: 0 <= k < |rooms| ==> rs[k] == rooms[k];
  }

  lemma RoomIdsAppend(rooms: seq<Room>, room: Room)
    ensures RoomIds(rooms + [room]) == RoomIds(rooms) + {room.id}
  {
    var rs := rooms + [room];
    forall x | x in RoomIds(rooms) ensures x in RoomIds(rs) {
      var k :| 0 <= k < |rooms| && rooms[k].id == x;
      assert rs[k].id == x;
    }
    assert rs[|rooms|].id == room.id;
  }
}
