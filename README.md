# A verified model of a live-video app's chat, wallet and account core

The system is a live-video and chat app: a Node/Express backend with a
WebSocket chat gateway, and a mobile client. Users sign up and log in with
one-time codes, buy diamonds, send them to hosts as gifts, and chat in
direct, call and group rooms. Hosts belong to agencies that take a
commission on the gifts their hosts receive. This project models the core
of that system in Dafny and proves properties of the model.

One module per source file:

| module | models |
|---|---|
| `Common` (common.dfy) | the JavaScript semantics the source relies on: truthiness, `trim`, `substring` (counting characters, not UTF-16 units), the default string order, query-parameter defaults, and a stable descending sort |
| `Messaging` (messaging.dfy) | `MessageService` of services/messageService.ts. A class holding the rooms and messages tables, with per-room sequence numbers, read receipts, history pages, unread counts, the room list and pruning |
| `Gateway` (gateway.dfy) | `WebSocketService` of services/websocketService.ts. It holds the connection registry, the event handlers and heartbeat, and the Redis fan-out, modelled as a FIFO bus |
| `ChatRoutes` (chat_routes.dfy) | the guards, defaults and responses of routes/chat.ts |
| `ChatStore` (chat_store.dfy) | the mobile chat store, store/chatStore.ts: rooms, messages per room, unread counts, typing and presence |
| `ClientSocket` (client_socket.dfy) | the mobile WebSocket client, services/websocketService.ts: connect, back-off reconnection, ping, subscribers |
| `Accounts` (accounts.dfy) | the relational store behind wallet, agency, auth and admin, as a `Database` class, plus the consistency the database and the services keep |
| `Wallet` (wallet.dfy) | services/walletService.ts: top-up orders, payment verification, gifts with agency commission, balance and ledger |
| `WalletRoutes` (wallet_routes.dfy) | the request checks and status codes of routes/wallet.ts |
| `AgencyRoutes` (agency.dfy) | join, leave, info and list of routes/agency.ts, and the totalHosts counters |
| `Otp` (otp.dfy) | utils/otp.ts: code generation, storage, comparison, expiry and the attempt budget |
| `Validation` (validation.dfy) | utils/validation.ts: the email, phone and username patterns, the age rule, and the normalisers |
| `AuthMiddleware` (auth_middleware.dfy) | the Bearer-token guards of middleware/auth.ts |
| `AuthService` (auth_service.dfy) | services/authService.ts: sendOTP, signup, login with a code, refresh, logout |
| `Admin` (admin.dfy) | the audit routes of routes/admin.ts: filters, paging, grouped totals, and the per-user ledger with its net flow |
| `LegacySocket` (legacy_socket.dfy) | the socket.io registry and relays of config/websocket.ts |

Code that updates state in place becomes a class:
- the message tables, the gateway, the mobile store, the client socket, the account database and the legacy socket server.

The methods of these classes are proved against specification functions. Those functions state the new state, and lemmas state the properties that matter:
- rooms and sequence numbers are unique;
- diamonds are credited once per order and conserved by a gift;
- totalHosts equals the number of an agency's members;
- an OTP record locks after five wrong codes;
- history pages tile the room;
- a logged-out token refreshes nothing.

Everything the source hands to a library or the outside world becomes a parameter:
- the clock, random draws and SHA-256;
- JWT verification, payment signature checks and date parsing;
- the answers of HTTP calls.

## Model

| member | source | states |
|---|---|---|
| Messaging.SortPair | packages/backend/src/services/messageService.ts:26-27 | the pair is the two users, smaller id first |
| Messaging.SortPairSymmetric | packages/backend/src/services/messageService.ts:26-27 | the sorted pair does not depend on the order the users are named in |
| Messaging.FindDirectRoom | packages/backend/src/services/messageService.ts:30-37 | the index found is a DIRECT room between the two users (either column order); None means no stored room is one |
| Messaging.FindDirectRoomSymmetric | packages/backend/src/services/messageService.ts:26-37 | looking up (a, b) and (b, a) finds the same room |
| Messaging.FindCallRoom | packages/backend/src/services/messageService.ts:94-95 | the index found is a room attached to the call; None means no room is |
| Messaging.FindRoom | packages/backend/src/services/messageService.ts:194-195 | the index found holds the room with that id; None means no room has it |
| Messaging.TouchKeepsRooms | packages/backend/src/services/messageService.ts:194-200 | setting a room's last-message time and preview keeps room ids, members and calls as they were |
| Messaging.RoomMessages | packages/backend/src/services/messageService.ts:162-166 | only messages of the room, at most as many as stored |
| Messaging.RoomMessagesAppend | packages/backend/src/services/messageService.ts:171-191 | a new message joins its own room's list at the end and no other room's |
| Messaging.ConsecutiveAscending | packages/backend/src/services/messageService.ts:154-168 | consecutive sequence numbers are strictly ascending and start at 1 or above |
| Messaging.MaxSequenceId | packages/backend/src/services/messageService.ts:162-166 | the result bounds every sequence number and is one of them |
| Messaging.NextSequenceIdFollowsLast | packages/backend/src/services/messageService.ts:162-168 | the next number is 1 in an empty room and otherwise the last number plus one, above every number used |
| Messaging.Earlier | packages/backend/src/services/messageService.ts:217 | only messages numbered below the cursor |
| Messaging.HistoryCandidates | packages/backend/src/services/messageService.ts:214-218 | the room's messages, restricted to those below the cursor when the cursor is truthy |
| Messaging.History | packages/backend/src/services/messageService.ts:209-235 | a page holds at most `limit` messages |
| Messaging.HistoryMatches | packages/backend/src/services/messageService.ts:214-218 | every message of a page is in the room and, with a truthy cursor, below it |
| Messaging.EarlierIsPrefix | packages/backend/src/services/messageService.ts:217 | in an ascending run the messages below a bound are a prefix |
| Messaging.EarlierThanElement | packages/backend/src/services/messageService.ts:217 | in an ascending run the messages below the j-th are the first j |
| Messaging.CandidatesArePrefix | packages/backend/src/services/messageService.ts:214-218 | with consecutive numbers the candidates are the room's oldest messages, ascending |
| Messaging.SuffixIsNewest | packages/backend/src/services/messageService.ts:219-220 | the last k of an ascending run are newer than everything before them |
| Messaging.HistoryIsNewestSuffix | packages/backend/src/services/messageService.ts:214-234 | the page is the last min(limit, candidates) candidates, in chronological order |
| Messaging.HistoryPageIsNewest | packages/backend/src/services/messageService.ts:205-234 | the page is ascending, has min(limit, candidates) messages, and every candidate left out is older than all of it |
| Messaging.CursorAtCandidate | packages/backend/src/services/messageService.ts:217 | using the j-th candidate's number as the cursor leaves exactly the j candidates before it |
| Messaging.CursorOfPage | packages/backend/src/services/messageService.ts:209-234 | the first message of a page, used as the next cursor, selects exactly the candidates older than the page |
| Messaging.HistoryPagesTile | packages/backend/src/services/messageService.ts:209-234 | paging backwards gives adjacent pages: together they are the newest candidates, none missed and none repeated |
| Messaging.MarkedRead | packages/backend/src/services/messageService.ts:240-262 | marking keeps the number of stored messages |
| Messaging.MarkedReadShape | packages/backend/src/services/messageService.ts:240-262 | each selected message ends up read by the user, who is appended once when missing; unselected messages and every other field are unchanged |
| Messaging.MarkedReadAppend | packages/backend/src/services/messageService.ts:251-261 | marking is done message by message |
| Messaging.MarkedReadIdempotent | packages/backend/src/services/messageService.ts:251-261 | marking twice is the same as marking once |
| Messaging.UnreadCount | packages/backend/src/services/messageService.ts:264-280 | the intended count: the room's messages from others not read by the user, at most the room's size |
| Messaging.UnreadCountAsWritten | packages/backend/src/services/messageService.ts:268-277 | the count as the filter is written (other senders and readBy containing the user), at most the room's size |
| Messaging.AsWrittenCountsTheRead | packages/backend/src/services/messageService.ts:268-277 | the count as written and the intended count add up to all the room's messages from others |
| Messaging.SeedRoomThreeCounts | packages/backend/src/services/messageService.ts:268-277 | three messages from another user, one read: the intended count is 2, the count as written is 1 |
| Messaging.MarkedReadUnread | packages/backend/src/services/messageService.ts:240-280 | after marking, the unread messages are those that were unread and not selected |
| Messaging.MarkingSparesOthers | packages/backend/src/services/messageService.ts:240-262 | marking for one user leaves every other user's unread count alone |
| Messaging.MarkingToTheEndClearsUnread | packages/backend/src/services/messageService.ts:240-280 | marking a room up to its highest number leaves the user nothing unread there |
| Messaging.RoomsOf | packages/backend/src/services/messageService.ts:286-292 | only rooms holding the user in one of the two user columns |
| Messaging.RoomsOfComplete | packages/backend/src/services/messageService.ts:286-292 | every room holding the user is listed |
| Messaging.LastMessage | packages/backend/src/services/messageService.ts:310-312 | there is a last message exactly when the room has messages |
| Messaging.LastMessageIsNewest | packages/backend/src/services/messageService.ts:310-312 | the last message belongs to the room and has its highest number |
| Messaging.UserRooms | packages/backend/src/services/messageService.ts:285-341 | one entry per room of the user, most recent activity first, each with its last message and the user's unread count, corrected as in the unread-count finding |
| Messaging.UserRoomsComplete | packages/backend/src/services/messageService.ts:285-341 | the listed rooms are the user's rooms, each as often as stored (a permutation) |
| Messaging.WithoutIds | packages/backend/src/services/messageService.ts:355-359 | no message with a deleted id survives; nothing is added |
| Messaging.WithoutLeadingIds | packages/backend/src/services/messageService.ts:355-359 | deleting exactly the ids of the first j messages leaves the rest |
| Messaging.RoomMessagesWithout | packages/backend/src/services/messageService.ts:355-359 | deleting by id and restricting to a room commute |
| Messaging.SameIdSameMessage | packages/backend/src/services/messageService.ts:355-359 | with unique ids, one id names one message |
| Messaging.DoomedAreOldest | packages/backend/src/services/messageService.ts:347-352 | the ids deleted are those of the room's oldest messages, all but the newest keepLast |
| Messaging.CleanupKeepsNewest | packages/backend/src/services/messageService.ts:343-361 | after cleanup the room holds exactly its newest keepLast messages, in order |
| Messaging.CleanupSparesOtherRooms | packages/backend/src/services/messageService.ts:346-361 | cleanup leaves every other room's messages untouched |
| Messaging.WithoutIdsUnique | packages/backend/src/services/messageService.ts:355-359 | deleting keeps ids unique |
| Messaging.RoomMessagesMarked | packages/backend/src/services/messageService.ts:251-261 | marking changes no room's messages except for their readers |
| Messaging.MarkedReadValid | packages/backend/src/services/messageService.ts:240-262 | marking keeps the store invariant (unique ids, known rooms, consecutive numbers) |
| Messaging.ConsecutiveAppend | packages/backend/src/services/messageService.ts:168-178 | appending the next number keeps a room's numbers consecutive |
| Messaging.CleanupValid | packages/backend/src/services/messageService.ts:346-361 | cleanup keeps the store invariant; the pruned room's numbers may then start above 1 |
| Messaging.AppendValid | packages/backend/src/services/messageService.ts:158-203 | creating a message with a fresh id, the next number and its sender as reader keeps the invariant |
| Messaging.AppendNumbered | packages/backend/src/services/messageService.ts:168-178 | appending a room's next message keeps every room numbered |
| Messaging.MessageService.constructor | packages/backend/src/services/messageService.ts:21 | an empty store over the given users and calls satisfies the invariant |
| Messaging.MessageService.GetOrCreateDirectRoom | packages/backend/src/services/messageService.ts:22-88 | returns the existing DIRECT room of the pair; otherwise appends one with the sorted pair and a fresh id; an unknown user is refused and nothing is written |
| Messaging.MessageService.GetOrCreateCallRoom | packages/backend/src/services/messageService.ts:90-152 | returns the call's existing room; otherwise appends a CALL room; an unknown call is refused and nothing is written |
| Messaging.MessageService.CreateMessage | packages/backend/src/services/messageService.ts:154-203 | the message gets the room's next number, a fresh id and the sender as first reader; the room's preview is the first 100 characters; a missing room or sender writes nothing |
| Messaging.MessageService.MarkMessagesAsRead | packages/backend/src/services/messageService.ts:237-262 | the new messages are MarkedRead of the old ones; rooms are unchanged; the invariant is kept |
| Messaging.MessageService.CleanupOldMessages | packages/backend/src/services/messageService.ts:343-361 | deletes exactly the room's messages past the newest keepLast; with none to delete nothing changes |
| Messaging.MarkAll | packages/backend/src/services/messageService.ts:251-261 | the loop's result is MarkedRead of its input |
| Messaging.MarkStep | packages/backend/src/services/messageService.ts:251-261 | one iteration marks exactly the message at the loop index |
| ChatRoutes.GetRooms | packages/backend/src/routes/chat.ts:12-26 | the caller's rooms as getUserRooms lists them, with the corrected unread counts, and their number |
| ChatRoutes.GetMessages | packages/backend/src/routes/chat.ts:32-57 | the history page for `limit` (100 when absent or zero) and the cursor, the caller's corrected unread count, and hasMore exactly when the page is full |
| ChatRoutes.NoMoreMeansComplete | packages/backend/src/routes/chat.ts:51 | a page that is not full holds every remaining candidate |
| ChatRoutes.FullLastPageSaysMore | packages/backend/src/routes/chat.ts:51 | a room of exactly `limit` messages answers hasMore although nothing older is left |
| ChatRoutes.GetUnread | packages/backend/src/routes/chat.ts:63-78 | the room id and the caller's corrected unread count |
| ChatRoutes.MarkRead | packages/backend/src/routes/chat.ts:84-105 | a falsy sequenceId is a 400 that marks nothing; otherwise the room's messages up to it are marked read by the caller |
| ChatRoutes.GetOnline | packages/backend/src/routes/chat.ts:111-126 | exactly the users with a connection on this instance that joined the room, and their number |
| ChatRoutes.Direct | packages/backend/src/routes/chat.ts:132-162 | 400 without a target or for the caller themself, before the store is touched; otherwise the direct room, its 50 newest messages and the caller's corrected unread count; a room already there leaves the room table unchanged, a missing one is appended once with the sorted pair, and an unknown user is a 500 with nothing written |
| ChatRoutes.Cleanup | packages/backend/src/routes/chat.ts:168-188 | only ADMIN may prune (403 otherwise, nothing deleted); keeps the newest keepLast (100 when absent or zero) and says so |
| Gateway.StoreErrorText | packages/backend/src/services/websocketService.ts:208-213 | a store error's text is never one of the gateway's own error texts |
| Gateway.Sent | packages/backend/src/services/websocketService.ts:353-357 | an envelope is appended to an open socket's outbox and dropped for a closed one; nothing else about the connection changes |
| Gateway.Listed | packages/backend/src/services/websocketService.ts:79-82 | the user gets an entry (created when missing) that holds the connection |
| Gateway.RegistryAdd | packages/backend/src/services/websocketService.ts:73-82 | registering a new connection under its own user keeps the registry: every listed connection exists and belongs to its user |
| Gateway.Unlisted | packages/backend/src/services/websocketService.ts:328-334 | the connection leaves its user's set; the user leaves the map with their last connection; other users are untouched |
| Gateway.RegistryRemove | packages/backend/src/services/websocketService.ts:324-334 | dropping a connection from both tables keeps the registry |
| Gateway.DeliverLocal | packages/backend/src/services/websocketService.ts:362-372 | every open connection that joined the room and is not the excluded user gets the envelope once; nothing else changes |
| Gateway.Sweep | packages/backend/src/services/websocketService.ts:420-434 | a connection that missed the last pong is terminated; every other one is marked not alive and pinged |
| Gateway.RoomsOfBroadcasts | packages/backend/src/services/websocketService.ts:337-345 | every broadcast's room is in the set |
| Gateway.RoomsOfBroadcastsMembers | packages/backend/src/services/websocketService.ts:337-345 | every room in the set comes from some broadcast |
| Gateway.OfflineNotices | packages/backend/src/services/websocketService.ts:337-345 | one offline presence notice per joined room, each room once |
| Gateway.WebSocketService.constructor | packages/backend/src/services/websocketService.ts:30-35 | no clients, no connections, nothing published |
| Gateway.WebSocketService.Reply | packages/backend/src/services/websocketService.ts:353-357 | only that connection's outbox changes, as `send` says |
| Gateway.WebSocketService.HandleConnection | packages/backend/src/services/websocketService.ts:58-115 | no token or an invalid one closes with 4001 and the matching text, registering nothing; a valid one registers the connection alive with no rooms and sends `connected` |
| Gateway.WebSocketService.HandleMessage | packages/backend/src/services/websocketService.ts:120-160 | a frame that does not parse, or a handled type without a payload, gets `Invalid message format`; `ping` gets `pong`; an unknown type changes nothing; joinRoom, leaveRoom, sendMessage, typing and markRead leave exactly the state their handler's predicate (JoinRoomAnswered, LeaveRoomAnswered, SendMessageAnswered, TypingAnswered, MarkReadAnswered) describes |
| Gateway.JoinTarget | packages/backend/src/services/websocketService.ts:166-179 | the other user is the roomId when truthy, else the targetUserId; none when both are falsy |
| Gateway.WebSocketService.HandleJoinRoom | packages/backend/src/services/websocketService.ts:165-215 | with neither id the caller gets the error and nothing else changes; otherwise the direct room is joined as JoinDirect states, with the corrected unread count |
| Gateway.WebSocketService.JoinDirect | packages/backend/src/services/websocketService.ts:173-214 | the direct room of the caller and the other user is found, with the room table unchanged, or else appended once with the sorted pair; it is joined, answered with 50 messages and the corrected unread count, and an online notice is published; an unknown user gets the store error, and nothing is written or joined |
| Gateway.WebSocketService.AnswerJoin | packages/backend/src/services/websocketService.ts:181-213 | on success the room is added to the connection's rooms, `roomJoined` is sent with the corrected unread count and an online notice excluding the caller is published; on error only the error is sent |
| Gateway.WebSocketService.HandleLeaveRoom | packages/backend/src/services/websocketService.ts:220-242 | silent unless joined; then the room is left, an offline notice excluding the caller is published and `roomLeft` is sent |
| Gateway.WebSocketService.HandleSendMessage | packages/backend/src/services/websocketService.ts:247-283 | not joined: an error and no write; otherwise the message is stored with type "text" by default and published to the whole room; a store error is sent back and nothing is published |
| Gateway.WebSocketService.AnswerSend | packages/backend/src/services/websocketService.ts:268-282 | a stored message is published to its room with no exclusion; an error is sent only to the caller |
| Gateway.WebSocketService.HandleTyping | packages/backend/src/services/websocketService.ts:288-301 | silent unless joined; then a typing notice naming the user by e-mail, else phone number, is published excluding the typist |
| Gateway.WebSocketService.HandleMarkRead | packages/backend/src/services/websocketService.ts:306-319 | marks read without any membership check, then acknowledges with `markedRead` |
| Gateway.WebSocketService.HandleDisconnect | packages/backend/src/services/websocketService.ts:324-348 | the connection is unregistered (the user goes with their last one) and one offline notice is published per joined room |
| Gateway.WebSocketService.HandlePong | packages/backend/src/services/websocketService.ts:107-109 | the connection is marked alive |
| Gateway.WebSocketService.Heartbeat | packages/backend/src/services/websocketService.ts:420-434 | the sweep applied to every connection; registrations stay until the close event |
| Gateway.WebSocketService.DeliverNext | packages/backend/src/services/websocketService.ts:400-414 | the oldest published broadcast is consumed and delivered to this instance's connections as broadcastToRoomLocal does |
| Gateway.WebSocketService.GetOnlineUsersInRoom | packages/backend/src/services/websocketService.ts:439-451 | exactly the users with a registered connection that joined the room |
| Gateway.WebSocketService.SendToUser | packages/backend/src/services/websocketService.ts:456-463 | every connection of the user is sent the envelope; other connections are untouched |
| ChatStore.AllOnClient | packages/mobile/src/store/chatStore.ts:79-82 | the room list the app receives has one entry per summary the server sent |
| ChatStore.ServerOrderIsClientOrder | packages/mobile/src/store/chatStore.ts:79-82 | the server's list is already in the order the app keeps: newest activity first |
| ChatStore.RoomIndex | packages/mobile/src/store/chatStore.ts:184 | the first room with the id, as `find` returns it; None when no room has it |
| ChatStore.RoomIndexByIds | packages/mobile/src/store/chatStore.ts:184 | lists with the same ids position by position find a room at the same place |
| ChatStore.Touched | packages/mobile/src/store/chatStore.ts:242-254 | updating the message's room keeps the number of listed rooms |
| ChatStore.Resorted | packages/mobile/src/store/chatStore.ts:242-263 | updating and re-sorting keeps the number of listed rooms |
| ChatStore.ResortedOrderAndRooms | packages/mobile/src/store/chatStore.ts:256-261 | the new list is sorted by last activity, newest first, and is a permutation of the updated rooms |
| ChatStore.ResortedCarriesMessage | packages/mobile/src/store/chatStore.ts:242-254 | the message's room shows the message as its last one, with zero unread while the room is on screen |
| ChatStore.NewestRoomFirst | packages/mobile/src/store/chatStore.ts:242-263 | a message newer than every other room's activity puts its room first |
| ChatStore.WithMessageOnce | packages/mobile/src/store/chatStore.ts:230-239 | the message is held after delivery; delivering it again changes nothing; other rooms' messages are untouched |
| ChatStore.WithMessageKeepsUnique | packages/mobile/src/store/chatStore.ts:234-238 | the duplicate check keeps a room's message ids unique |
| ChatStore.OlderPageIsOlder | packages/mobile/src/store/chatStore.ts:105-121 | the older page the server answers lies in the room and before the first loaded message |
| ChatStore.ZeroUnread | packages/mobile/src/store/chatStore.ts:192-195 | resetting the unread count keeps the number of listed rooms |
| ChatStore.ZeroUnreadSettles | packages/mobile/src/store/chatStore.ts:183-195 | after a successful markAsRead the next one for the room sends nothing; other rooms are untouched |
| ChatStore.WithRoomOnce | packages/mobile/src/store/chatStore.ts:208-213 | the created room is listed, and opening it again lists it once |
| ChatStore.Typed | packages/mobile/src/store/chatStore.ts:269-282 | ignored without a room; otherwise the user is added to or removed from that room's typists and no other room changes |
| ChatStore.TypingExpired | packages/mobile/src/store/chatStore.ts:284-291 | three seconds after a typing start the user is no longer typing in that room; other rooms are untouched |
| ChatStore.Presence | packages/mobile/src/store/chatStore.ts:297-311 | ignored without a room; otherwise the user is online in the room exactly when the status is "online" |
| ChatStore.GatewayNoticesIgnored | packages/mobile/src/store/chatStore.ts:269-311 | the server's typing and presence notices carry no room id, so the store records none of them |
| ChatStore.ChatState.constructor | packages/mobile/src/store/chatStore.ts:33-40 | the initial state: no rooms, no messages, no room on screen, not connected |
| ChatStore.ChatState.Initialize | packages/mobile/src/store/chatStore.ts:45-66 | connected exactly when the socket connects; then the four handlers are subscribed and the rooms loaded; otherwise nothing else changes |
| ChatStore.ChatState.OnConnected | packages/mobile/src/store/chatStore.ts:55-58 | the `connected` event sets isConnected and nothing else |
| ChatStore.ChatState.Cleanup | packages/mobile/src/store/chatStore.ts:71-74 | the socket is disconnected; not connected; no room on screen |
| ChatStore.ChatState.LoadRooms | packages/mobile/src/store/chatStore.ts:79-86 | the list is replaced by the server's; a failure keeps it |
| ChatStore.ChatState.LoadMessages | packages/mobile/src/store/chatStore.ts:91-100 | the room's newest page (50 by default) replaces what was loaded; a failure keeps it |
| ChatStore.ChatState.LoadMoreMessages | packages/mobile/src/store/chatStore.ts:105-125 | nothing without loaded messages; otherwise the 50 before the first loaded one are asked for and a non-empty answer goes in front |
| ChatStore.ChatState.JoinRoom | packages/mobile/src/store/chatStore.ts:130-133 | a joinRoom frame goes out (when the socket is open) and the room is on screen |
| ChatStore.ChatState.LeaveRoom | packages/mobile/src/store/chatStore.ts:138-143 | a leaveRoom frame goes out; the room leaves the screen only if it was on it |
| ChatStore.ChatState.SendMessage | packages/mobile/src/store/chatStore.ts:148-158 | blank content sends nothing; otherwise the trimmed content goes out |
| ChatStore.ChatState.SendTyping | packages/mobile/src/store/chatStore.ts:163-171 | a typing frame goes out only while the store says it is connected |
| ChatStore.ChatState.MarkAsRead | packages/mobile/src/store/chatStore.ts:176-199 | nothing without loaded messages or when the room already shows zero unread; otherwise the last loaded number is sent and, once accepted, the room shows zero unread |
| ChatStore.ChatState.CreateDirectRoom | packages/mobile/src/store/chatStore.ts:204-225 | the server's room is put first unless already listed, its messages are stored and its id returned; a failure is passed on and changes nothing |
| ChatStore.ChatState.HandleNewMessage | packages/mobile/src/store/chatStore.ts:230-264 | the message is added unless already held; the room list is touched and re-sorted even for a repeat |
| ChatStore.ChatState.HandleTyping | packages/mobile/src/store/chatStore.ts:269-282 | the typists become Typed of the old ones |
| ChatStore.ChatState.TypingTimeout | packages/mobile/src/store/chatStore.ts:285-291 | the timer removes the user from the room's typists |
| ChatStore.ChatState.HandlePresenceUpdate | packages/mobile/src/store/chatStore.ts:297-311 | the online sets become Presence of the old ones |
| ClientSocket.Backoff | packages/mobile/src/services/websocketService.ts:191-207 | a delay exists exactly while fewer than five reconnects were scheduled, and it is at least the one-second base |
| ClientSocket.BackoffSchedule | packages/mobile/src/services/websocketService.ts:12-14 | the five delays are 1, 2, 4, 8 and 16 seconds and no sixth reconnect is scheduled |
| ClientSocket.BackoffDoubles | packages/mobile/src/services/websocketService.ts:197-198 | each delay is twice the one before |
| ClientSocket.Subscribed | packages/mobile/src/services/websocketService.ts:120-125 | the handler joins the type's set, created when missing; other types are untouched |
| ClientSocket.Unsubscribed | packages/mobile/src/services/websocketService.ts:130-135 | the handler leaves the type's set; other types and the map's keys are untouched |
| ClientSocket.OffUndoesOn | packages/mobile/src/services/websocketService.ts:120-135 | off undoes on for a handler not yet subscribed, and subscribing twice is subscribing once |
| ClientSocket.Outgoing | packages/mobile/src/services/websocketService.ts:107-115 | a frame is written exactly when the socket is open |
| ClientSocket.FramesAreHandled | packages/mobile/src/services/websocketService.ts:140-170 | every frame the client builds is one the server dispatches to a handler with a payload |
| ClientSocket.JoinRoomReadAsUser | packages/mobile/src/services/websocketService.ts:140-142 | the server reads the roomId the client sends as the id of the other user of a direct room |
| ClientSocket.Invoke | packages/mobile/src/services/websocketService.ts:176-185 | each subscriber is called exactly once with the argument |
| ClientSocket.WebSocketService.constructor | packages/mobile/src/services/websocketService.ts:10-17 | no socket, no attempts, no pending connect, no keep-alive, no handlers |
| ClientSocket.WebSocketService.Connect | packages/mobile/src/services/websocketService.ts:22-90 | a pending connect is shared; an open socket resolves at once; no stored token rejects with the login message; otherwise a new socket starts connecting |
| ClientSocket.WebSocketService.OnOpen | packages/mobile/src/services/websocketService.ts:47-53 | the attempts reset to zero, the pending connect settles and the keep-alive starts |
| ClientSocket.WebSocketService.OnTimeout | packages/mobile/src/services/websocketService.ts:77-82 | the connect rejects exactly when the socket is still not open |
| ClientSocket.WebSocketService.OnClose | packages/mobile/src/services/websocketService.ts:69-74 | the pending connect is dropped, the keep-alive stops, and a reconnect is scheduled with the back-off delay while attempts remain |
| ClientSocket.WebSocketService.AttemptReconnect | packages/mobile/src/services/websocketService.ts:191-207 | counts the attempt and returns its delay, or gives up after the fifth |
| ClientSocket.WebSocketService.Disconnect | packages/mobile/src/services/websocketService.ts:95-102 | no keep-alive, no socket, no pending connect; handlers and attempts are kept |
| ClientSocket.WebSocketService.Send | packages/mobile/src/services/websocketService.ts:107-115 | the frame is written only while the socket is open |
| ClientSocket.WebSocketService.PingTick | packages/mobile/src/services/websocketService.ts:212-216 | a ping frame is sent on each tick while the keep-alive runs |
| ClientSocket.WebSocketService.On | packages/mobile/src/services/websocketService.ts:120-125 | the handlers become Subscribed of the old ones |
| ClientSocket.WebSocketService.Off | packages/mobile/src/services/websocketService.ts:130-135 | the handlers become Unsubscribed of the old ones |
| ClientSocket.WebSocketService.JoinRoom | packages/mobile/src/services/websocketService.ts:140-142 | sends a joinRoom frame carrying the room id |
| ClientSocket.WebSocketService.LeaveRoom | packages/mobile/src/services/websocketService.ts:147-149 | sends a leaveRoom frame carrying the room id |
| ClientSocket.WebSocketService.SendMessage | packages/mobile/src/services/websocketService.ts:154-156 | sends a sendMessage frame with room, content and type |
| ClientSocket.WebSocketService.SendTyping | packages/mobile/src/services/websocketService.ts:161-163 | sends a typing frame |
| ClientSocket.WebSocketService.MarkRead | packages/mobile/src/services/websocketService.ts:168-170 | sends a markRead frame with the sequence number |
| ClientSocket.WebSocketService.HandleMessage | packages/mobile/src/services/websocketService.ts:175-186 | the type's subscribers get the payload first, then the wildcard subscribers get the whole envelope, each once |
| Common.Trim | packages/mobile/src/store/chatStore.ts:149-154 | the trimmed text is the slice of the input between a leading and a trailing run of whitespace; it has no whitespace at either end, and is empty exactly when the input is all whitespace |
| Common.Prefix | packages/backend/src/services/messageService.ts:198 | the first min(n, length) characters, counted as Unicode scalars |
| Common.Decimal | packages/backend/src/routes/chat.ts:182 | a number's decimal digits, with no leading zero |
| Common.DecimalRoundTrip | packages/backend/src/routes/chat.ts:182 | reading back the digits written gives the number |
| Common.OrDefault | packages/backend/src/routes/chat.ts:36 | a present non-zero value is used as given; an absent or zero one falls back to the default |
| Common.Filter | packages/backend/src/routes/admin.ts:39-53 | only elements that pass, never more than the input (order: FilterAppend) |
| Common.FilterAppend | packages/backend/src/routes/admin.ts:39-53 | filtering a concatenation is the concatenation of the filtered parts, so the kept elements stay in their order |
| Common.FilterMembers | packages/backend/src/routes/admin.ts:39-53 | an element is kept exactly when it is in the input and passes |
| Common.FirstIndex | packages/mobile/src/store/chatStore.ts:184 | the index of the first element that passes; None when none does |
| Common.SortDescBy | packages/mobile/src/store/chatStore.ts:257-261 | sorting keeps the length |
| Common.SortDescBySorted | packages/mobile/src/store/chatStore.ts:257-261 | the result is ordered by key, largest first |
| Common.SortDescByPermutes | packages/mobile/src/store/chatStore.ts:257-261 | the result is a permutation of the input |
| Common.Take | packages/backend/src/services/messageService.ts:220 | the first n elements, or all of them when there are fewer |
| Common.ReverseAt | packages/backend/src/services/messageService.ts:234 | the i-th element of the reversal is the i-th from the end |
| Validation.IsValidEmail | packages/backend/src/utils/validation.ts:4-7 | true exactly for one '@' that is not first, no whitespace anywhere, and a '.' strictly inside the part after the '@' |
| Validation.EmailCheckAgrees | packages/backend/src/utils/validation.ts:5 | the pattern, decided at the first '@', is the position-by-position check |
| Validation.EmailExamples | packages/backend/src/utils/validation.ts:5 | "a@b.c" passes; "a@b@c.d" and "a@.c" do not |
| Validation.Digits | packages/backend/src/utils/validation.ts:14 | only digit characters, never more than the input |
| Validation.IsValidPhoneNumber | packages/backend/src/utils/validation.ts:12-18 | true exactly when the number holds 10 to 15 digit characters |
| Validation.RemoveFirstPlus | packages/backend/src/utils/validation.ts:76 | only the first '+' is removed |
| Validation.FormatPhoneNumber | packages/backend/src/utils/validation.ts:73-81 | the digits of the phone end the result, behind '+' when they already start with the country code's digits, behind the country code ('+1' by default) otherwise |
| Validation.FormattedShape | packages/backend/src/utils/validation.ts:73-81 | with a '+digits' country code the result is '+', the country digits, then digits only |
| Validation.FormatIdempotent | packages/backend/src/utils/validation.ts:73-81 | formatting a formatted number again changes nothing |
| Validation.IsValidUsername | packages/backend/src/utils/validation.ts:23-27 | true exactly for 3 to 20 characters, each a letter, digit, '_' or '-' |
| Validation.LowerAll | packages/backend/src/utils/validation.ts:67 | each character lower-cased, same length |
| Validation.SanitizeUsername | packages/backend/src/utils/validation.ts:66-68 | only allowed lower-case characters remain, never more than the input |
| Validation.SanitizePicks | packages/backend/src/utils/validation.ts:66-68 | the result is the lower-cased allowed characters of the input, in their order (a subsequence) |
| Validation.SanitizeIdempotent | packages/backend/src/utils/validation.ts:66-68 | sanitizing twice is sanitizing once |
| Validation.SanitizeAndValidity | packages/backend/src/utils/validation.ts:23-27 | a valid name without capitals is left as it is; a sanitized name is valid exactly when it has 3 to 20 characters |
| Validation.CalculateAge | packages/backend/src/utils/validation.ts:49-61 | the difference of the years, one less when this year's birthday is still ahead |
| Validation.AgeMeansBirthday | packages/backend/src/utils/validation.ts:49-61 | the age is at least n exactly when the n-th birthday is on or before today |
| Validation.IsValidAge | packages/backend/src/utils/validation.ts:32-44 | true exactly when the 18th birthday is on or before today |
| Validation.AgeMonotone | packages/backend/src/utils/validation.ts:49-61 | the age never decreases as time passes |
| Otp.GenerateOtp | packages/backend/src/utils/otp.ts:10-14 | six decimal digits whose value lies in [100000, 999999), the upper bound excluded |
| Otp.GenerateDevOtp | packages/backend/src/utils/otp.ts:19-24 | "123456" in development, a random six-digit code elsewhere |
| Otp.VerifyOtp | packages/backend/src/utils/otp.ts:39-46 | compares in the clear in development and by digest elsewhere |
| Otp.OtpRoundTrip | packages/backend/src/utils/otp.ts:29-46 | a stored code accepts the code it was made from; in development, or under a collision-free digest, only that code |
| Otp.OtpExpiration | packages/backend/src/utils/otp.ts:51-55 | ten minutes (600000 ms) from now |
| Otp.ExpiryWindow | packages/backend/src/utils/otp.ts:60-62 | a code is accepted up to and including ten minutes after it was made, and refused from the next millisecond on |
| Otp.AttemptsBudget | packages/backend/src/utils/otp.ts:67-69 | a code is still checked exactly while fewer than five attempts were counted |
| Otp.DeliveryError | packages/backend/src/utils/otp.ts:74-95 | delivery fails exactly in production, with the channel's "not configured" text |
| AuthMiddleware.Request.constructor | packages/backend/src/middleware/auth.ts:6-12 | a request carries its Authorization header and no user yet |
| AuthMiddleware.BearerToken | packages/backend/src/middleware/auth.ts:21-27 | a token exactly when the header is present, non-empty and starts with "Bearer "; the header is "Bearer " followed by the token |
| AuthMiddleware.BearerRoundTrip | packages/backend/src/middleware/auth.ts:23-27 | reading the token back from "Bearer " + token gives the token |
| AuthMiddleware.Authenticate | packages/backend/src/middleware/auth.ts:18-44 | 401 "No token provided" without a Bearer header, 401 "Invalid or expired token" when it does not verify; succeeds exactly when some token after "Bearer " verifies, with its claims |
| AuthMiddleware.RequireAuth | packages/backend/src/middleware/auth.ts:18-44 | on success the claims are attached; on failure the 401 is reported and the request is left as it was |
| AuthMiddleware.RequireRole | packages/backend/src/middleware/auth.ts:49-61 | passes exactly for a user whose role is listed; 401 without a user, 403 otherwise |
| AuthMiddleware.RequireAdmin | packages/backend/src/middleware/auth.ts:81 | passes exactly for an ADMIN user; otherwise 401 or 403 |
| AuthMiddleware.RequireHost | packages/backend/src/middleware/auth.ts:66-76 | passes exactly for a user whose token says host; 401 without a user, 403 "Host status required" otherwise |
| AuthMiddleware.AdminGate | packages/backend/src/middleware/auth.ts:18-81 | requireAuth followed by requireAdmin lets a request through exactly when its Bearer token verifies to ADMIN claims |
| AuthMiddleware.OptionalAuth | packages/backend/src/middleware/auth.ts:86-101 | attaches the claims of a valid Bearer token and otherwise leaves the request alone, never failing |
| AuthMiddleware.GuardsAgree | packages/backend/src/middleware/auth.ts:18-101 | with a valid token requireAuth and optionalAuth attach the same user; both attach one exactly when authentication succeeds |
| Accounts.HostsOf | packages/backend/src/routes/agency.ts:65-73 | the users an agency's totalHosts counts are exactly the users whose agencyId names it |
| Accounts.Purchases | packages/backend/src/services/walletService.ts:137-155 | the number of PURCHASE rows crediting an order, never more than the ledger holds |
| Accounts.OrderIndex | packages/backend/src/services/walletService.ts:74-81 | findUnique by order id: a position holding that id, or no order carries it |
| Accounts.KeyedOrder | packages/backend/src/services/walletService.ts:15-23 | findUnique by idempotency key on payment orders: a position holding that key, or none does |
| Accounts.KeyedTransaction | packages/backend/src/services/walletService.ts:181-196 | findUnique by idempotency key on ledger rows: a position holding that key, or none does |
| Accounts.Window | packages/backend/src/services/walletService.ts:390-395 | skip then take: at most limit rows, the rows from offset on, nothing past the end |
| Accounts.Defined | packages/backend/src/services/authService.ts:400-406 | an empty value is dropped: present exactly when the value is a non-empty string, and then unchanged |
| Accounts.TokenClaims | packages/backend/src/services/authService.ts:399-406 | the access-token claims carry the user's id, role and host flag, and the email, phone and agency only when non-empty |
| Accounts.HostsAfterUpdate | packages/backend/src/routes/agency.ts:53-73 | replacing one user moves only that user in or out of an agency's host set |
| Accounts.UsersKeyedAfterUpdate | packages/backend/src/routes/agency.ts:53-73 | replacing a user by a row with the same id keeps users stored under their ids and every wallet owned by a stored user |
| Accounts.KeyedAfterMove | packages/backend/src/routes/agency.ts:53-73 | moving one user to a stored agency, or to none, keeps every membership pointing at a stored agency |
| Accounts.HostsKept | packages/backend/src/services/walletService.ts:240-291 | updates that leave every user's agency and every agency's totalHosts alone keep the host counts right |
| Accounts.PurchasesAppendOther | packages/backend/src/services/walletService.ts:305-345 | appending rows that credit no order leaves every order's credit count unchanged |
| Accounts.PurchasesNone | packages/backend/src/services/walletService.ts:137-155 | an order no row credits has a credit count of zero |
| Accounts.PurchasesAppendOne | packages/backend/src/services/walletService.ts:137-155 | appending one row adds one to the count of the order it credits and nothing to any other |
| Wallet.WithOrder | packages/backend/src/services/walletService.ts:41-54 | the tables with the new payment order appended and everything else unchanged |
| Wallet.WithOrderKeepsConsistent | packages/backend/src/services/walletService.ts:41-54 | storing a CREATED order for a known user under a fresh id and key keeps the store consistent |
| Wallet.RepeatedKeyFindsOrder | packages/backend/src/services/walletService.ts:15-23 | once an order with a key is stored, a repeated request with that key finds it |
| Wallet.CreateTopupOrder | packages/backend/src/services/walletService.ts:9-62 | a truthy key already on an order returns that order and writes nothing; otherwise a CREATED order for the user, amount, provider and key is appended and nothing else changes; unknown users and key clashes are refused unchanged |
| Wallet.PaymentRefusal | packages/backend/src/services/walletService.ts:74-85 | verification proceeds exactly for an existing order owned by the caller; otherwise "Payment order not found" or the ownership error |
| Wallet.PurchaseRow | packages/backend/src/services/walletService.ts:137-155 | the purchase row credits the order, for its owner and its amount |
| Wallet.Rejected | packages/backend/src/services/walletService.ts:99-110 | a bad signature marks exactly that order FAILED with the reason and changes no other order or table |
| Wallet.Settled | packages/backend/src/services/walletService.ts:114-157 | a paid order becomes SUCCESS with the payment id, its owner alone gains its diamonds, one purchase row is appended, nothing else changes |
| Wallet.RejectedKeepsConsistent | packages/backend/src/services/walletService.ts:99-110 | failing an order that had not succeeded keeps the store consistent |
| Wallet.OrderIndexOfSameIds | packages/backend/src/services/walletService.ts:74-76 | lookups by id agree on two order lists with the same ids in the same places |
| Wallet.SettledKeepsConsistent | packages/backend/src/services/walletService.ts:114-157 | settling an order that had not succeeded keeps the store consistent: its credit count goes from zero to one |
| Wallet.LedgerAfterPurchase | packages/backend/src/services/walletService.ts:137-155 | the ledger stays keyed, and every successful order keeps exactly one credit, after the purchase row is appended |
| Wallet.Reject | packages/backend/src/services/walletService.ts:99-110 | the database afterwards is Rejected of the one before, and stays consistent |
| Wallet.Settle | packages/backend/src/services/walletService.ts:114-157 | the database afterwards is Settled of the one before, all three writes together, and stays consistent |
| Wallet.VerifyPayment | packages/backend/src/services/walletService.ts:67-165 | refusals change nothing; a SUCCESS order is reported already processed unchanged; a bad signature fails the order; a good one settles it and reports the new balance |
| Wallet.CreditedAtMostOnce | packages/backend/src/services/walletService.ts:87-90 | in a consistent store an order has at most one purchase row, and one exactly when it is SUCCESS: repeated verification credits once |
| Wallet.Commission | packages/backend/src/services/walletService.ts:234-235 | `Math.floor(diamonds * (commissionRate / 100))` taken exactly over integers: the largest whole number not above the exact share |
| Wallet.CommissionWithinGift | packages/backend/src/services/walletService.ts:233-236 | with a rate of at most 100 the commission never exceeds the gift |
| Wallet.SplitGift | packages/backend/src/services/walletService.ts:229-237 | commission and host earnings add up to the gift; only a host with a stored agency pays commission, at that agency's rate |
| Wallet.Replay | packages/backend/src/services/walletService.ts:181-196 | a row is replayed only for a truthy key it carries; none when the key is falsy or new |
| Wallet.GiftAt | packages/backend/src/services/walletService.ts:188-194 | a found gift is stored, between the two users, at the row's time |
| Wallet.GiftRefusal | packages/backend/src/services/walletService.ts:200-227 | a gift proceeds exactly for a positive amount, an existing giver with enough diamonds, an existing receiver that, if a host, has a wallet, and a new key; "Invalid diamond amount" first |
| Wallet.Transferred | packages/backend/src/services/walletService.ts:240-264 | the balance update keeps every user and every id, agency and host flag |
| Wallet.Earned | packages/backend/src/services/walletService.ts:266-276 | the agency update keeps every agency, its id, code and host count |
| Wallet.CreditedWallets | packages/backend/src/services/walletService.ts:278-291 | the wallet update keeps the set of wallets |
| Wallet.GiftRows | packages/backend/src/services/walletService.ts:305-345 | two rows, the giver's carrying the request key and the receiver's none, neither a purchase |
| Wallet.GiftTables | packages/backend/src/services/walletService.ts:205-356 | the gift's writes touch no order, withdrawal, OTP or refresh token |
| Wallet.GiftConserves | packages/backend/src/services/walletService.ts:229-291 | the giver pays exactly what the receiver gains plus the agency's commission; no other user or agency changes; a host's wallet gains the host's earnings |
| Wallet.GiftKeepsConsistent | packages/backend/src/services/walletService.ts:205-356 | a gift with a new key keeps the store consistent |
| Wallet.LedgerAppendGift | packages/backend/src/services/walletService.ts:305-345 | the two gift rows repeat no key when the request key is new |
| Wallet.RepeatedKeyFindsGift | packages/backend/src/services/walletService.ts:181-196 | after a keyed gift, the same key replays the giver's row and finds the gift |
| Wallet.KeyedAppend | packages/backend/src/services/walletService.ts:305-323 | a new key on the first appended row is found at that row |
| Wallet.RecordGift | packages/backend/src/services/walletService.ts:205-356 | the database afterwards is GiftTables of the one before, and stays consistent |
| Wallet.SendGift | packages/backend/src/services/walletService.ts:171-363 | a replayed key answers with the earlier row and gift unchanged; a refusal changes nothing; otherwise the gift is recorded and the split reported, with the giver's balance after the debit alone (as `updatedGiver`) and the receiver's after both updates |
| Wallet.GetBalance | packages/backend/src/services/walletService.ts:367-387 | "User not found" exactly for an unknown user; otherwise the user's diamonds and wallet |
| Wallet.GetTransactions | packages/backend/src/services/walletService.ts:389-408 | one window of the user's rows newest first, at most limit, with the user's total |
| Wallet.TransactionPageSound | packages/backend/src/services/walletService.ts:390-400 | a page holds only the user's rows, newest first, and the full ordering holds every row of the user |
| WalletRoutes.TopupRefusal | packages/backend/src/routes/wallet.ts:18-24 | an order is created exactly for an amount between 1 and 100000; a missing or non-positive one is "Invalid diamond amount" |
| WalletRoutes.Topup | packages/backend/src/routes/wallet.ts:12-36 | a refused body is 400 with nothing stored; a truthy key that already names an order answers 201 with that order and stores nothing; a present but falsy key that clashes is 500 with the unique-key refusal; an unknown user is 500 with the foreign-key refusal; otherwise 201 with a new Created order for the caller, amount and key, appended to the orders |
| WalletRoutes.Verify | packages/backend/src/routes/wallet.ts:42-64 | missing payment details are 400 with nothing changed; a refusal is 400 with its message and nothing changed; an order already paid answers "Payment already processed" with that order and nothing changed; a bad signature is 400 "Invalid payment signature" and the order is marked failed; a good one answers "Payment verified and diamonds credited" with the settled order, its purchase row and the new balance |
| WalletRoutes.GiftRequestRefusal | packages/backend/src/routes/wallet.ts:76-90 | the service is reached exactly with a receiver, a positive amount, a gift type and a receiver other than the giver |
| WalletRoutes.SendGiftRoute | packages/backend/src/routes/wallet.ts:70-110 | refusals are 400 with nothing changed; the service is never asked for a self-gift; a new valid gift writes GiftTables; a replayed key answers "Gift already sent" with the gift and ledger row already stored and changes nothing |
| WalletRoutes.BalanceRoute | packages/backend/src/routes/wallet.ts:116-129 | an unknown user is 500 "User not found"; otherwise the user's diamonds and their wallet, or none when they have no wallet |
| WalletRoutes.TransactionsRoute | packages/backend/src/routes/wallet.ts:135-148 | limit defaults to 50 and offset to 0; the page is the offset/limit window of the caller's ledger rows newest first, and the total counts all the caller's rows |
| WalletRoutes.PaymentOrdersRoute | packages/backend/src/routes/wallet.ts:154-181 | the offset/limit window of the caller's own orders sorted newest first, each one stored and the caller's, in descending creation time, with the caller's total order count |
| AgencyRoutes.JoinRefusal | packages/backend/src/routes/agency.ts:15-50 | a join proceeds exactly for a signed-in caller with a code naming an active agency, who exists and belongs to no agency; no user is 401, an unknown code 404 |
| AgencyRoutes.Joined | packages/backend/src/routes/agency.ts:53-73 | the caller belongs to the agency and is a host, the agency counts one host more, and nothing else changes |
| AgencyRoutes.JoinedHosts | packages/backend/src/routes/agency.ts:53-73 | the join adds exactly the caller to that agency's hosts and changes no other agency's hosts |
| AgencyRoutes.JoinKeepsConsistent | packages/backend/src/routes/agency.ts:53-73 | a join by a user outside every agency keeps every totalHosts equal to the number of members |
| AgencyRoutes.Join | packages/backend/src/routes/agency.ts:13-101 | refusals change nothing; otherwise the database becomes Joined and the answer carries the updated user and a token naming the agency |
| AgencyRoutes.LeaveRefusal | packages/backend/src/routes/agency.ts:108-123 | a leave proceeds exactly for a signed-in caller who exists and belongs to an agency; no user is 401 |
| AgencyRoutes.Left | packages/backend/src/routes/agency.ts:124-145 | the caller belongs to no agency but keeps the host flag, the agency counts one host less, nothing else changes |
| AgencyRoutes.LeftHosts | packages/backend/src/routes/agency.ts:124-145 | the leave removes exactly the caller from its agency's hosts and changes no other agency's hosts |
| AgencyRoutes.LeaveKeepsConsistent | packages/backend/src/routes/agency.ts:124-145 | a leave keeps every totalHosts equal to the number of members |
| AgencyRoutes.LeaveUndoesJoin | packages/backend/src/routes/agency.ts:53-73 | leaving after joining restores the store except that the user stays a host |
| AgencyRoutes.Leave | packages/backend/src/routes/agency.ts:106-171 | refusals change nothing; otherwise the database becomes Left and the token names no agency and keeps the host flag |
| AgencyRoutes.Info | packages/backend/src/routes/agency.ts:175-220 | 401 without a user, 404 when the token names no agency or an unknown one; otherwise that agency and exactly its members |
| AgencyRoutes.InfoAfterJoin | packages/backend/src/routes/agency.ts:76-83 | the token a join returns opens the agency's info, which lists the new host, and the count shown equals the hosts listed |
| AgencyRoutes.StaleTokenAfterLeave | packages/backend/src/routes/agency.ts:181-203 | a token issued before a leave still opens the agency's info, which no longer lists the caller |
| AgencyRoutes.ActiveAgencies | packages/backend/src/routes/agency.ts:230-232 | the active agencies, each exactly once |
| AgencyRoutes.List | packages/backend/src/routes/agency.ts:228-252 | every active agency exactly once, ordered by totalHosts descending, with their count |
| AuthService.SendOtpRefusal | packages/backend/src/services/authService.ts:49-59 | a code is sent exactly when an email or phone is given and each one given is well formed; refusals are 400 |
| AuthService.OtpRecord | packages/backend/src/services/authService.ts:62-76 | the stored record accepts the code drawn, with no attempts, unverified, expiring ten minutes after now |
| AuthService.SendFailure | packages/backend/src/services/authService.ts:78-82 | delivery fails exactly in production |
| AuthService.SendOtp | packages/backend/src/services/authService.ts:48-88 | a refused request stores nothing; a valid one stores the record before delivery, so a production build stores it and still fails |
| AuthService.SignupRefusal | packages/backend/src/services/authService.ts:96-132 | signup proceeds exactly with a username, a birth date, an email or phone, a valid username, age 18 or more, and no user sharing the username, email or phone; refusals are 400 or 409 |
| AuthService.NewUser | packages/backend/src/services/authService.ts:141-158 | the new user carries the given contacts and username, the display name falling back to the username, no agency, no host flag, no diamonds, role USER |
| AuthService.SignupKeepsConsistent | packages/backend/src/services/authService.ts:141-158 | a user and wallet created under a fresh id keep the store consistent |
| AuthService.SignupKeepsContactsUnique | packages/backend/src/services/authService.ts:120-132 | a signup the collision check lets through keeps usernames, emails and phone numbers unique |
| AuthService.Signup | packages/backend/src/services/authService.ts:93-161 | a refusal changes nothing; otherwise the new user under a fresh id, with its wallet, is stored and returned |
| AuthService.LoginInputRefusal | packages/backend/src/services/authService.ts:169-175 | a login proceeds exactly with an email or a phone, and a code |
| AuthService.StatusRefusal | packages/backend/src/services/authService.ts:192-198 | suspended and banned users are refused, everyone else proceeds |
| AuthService.Newest | packages/backend/src/services/authService.ts:201-213 | the newest eligible record, or none is eligible |
| AuthService.LoginCode | packages/backend/src/services/authService.ts:201-213 | the record the corrected lookup checks is an unverified LOGIN code for the contact used |
| AuthService.LoginCodeAsWrittenIndex | packages/backend/src/services/authService.ts:201-213 | the record the lookup as written checks matches the email or the phone given |
| AuthService.CodeRefusal | packages/backend/src/services/authService.ts:220-227 | the code is compared exactly when the record has not expired and has fewer than five attempts |
| AuthService.Attempted | packages/backend/src/services/authService.ts:232-239 | a wrong code adds one attempt to that record and changes nothing else |
| AuthService.AfterLogin | packages/backend/src/services/authService.ts:249-260 | the contact used is marked verified and the login time recorded; the token claims stay the same |
| AuthService.LoggedIn | packages/backend/src/services/authService.ts:243-262 | the record is marked verified, the user updated and one refresh-token row appended |
| AuthService.LoginKeepsConsistent | packages/backend/src/services/authService.ts:243-262 | a login keeps the store consistent |
| AuthService.LoginFound | packages/backend/src/services/authService.ts:190-287 | the database and answer after the user lookup are those LoginAs gives, the corrected code lookup |
| AuthService.CountAttempt | packages/backend/src/services/authService.ts:234-237 | the database afterwards is Attempted of the one before |
| AuthService.RecordLogin | packages/backend/src/services/authService.ts:243-262 | the database afterwards is LoggedIn of the one before |
| AuthService.LoginWithOtp | packages/backend/src/services/authService.ts:166-287 | input refusals and an unknown user change nothing; otherwise the outcome is LoginAs, the corrected code lookup, for a user found by the contact |
| AuthService.LoginAttempts | packages/backend/src/services/authService.ts:230-262 | under the corrected lookup, a wrong code costs exactly one attempt on the record checked; a right code uses the record up and stores the refresh token's digest for seven days |
| AuthService.LockedAfterFiveFailures | packages/backend/src/services/authService.ts:225-227 | under the corrected lookup, after five wrong codes the record refuses every code, the right one included, with 429 and no change |
| AuthService.SentCodeLogsIn | packages/backend/src/services/authService.ts:48-287 | under the corrected lookup, a code just sent to an email logs its owner in within ten minutes while no newer record exists |
| AuthService.LoginAsWrittenAcceptsAnotherContact | packages/backend/src/services/authService.ts:178-217 | as written, a code sent to one phone logs in the owner of the email given beside it; the corrected lookup refuses |
| AuthService.LoginUsesOwnContact | packages/backend/src/services/authService.ts:178-217 | with the corrected lookup a login succeeds only with a code sent to the contact the user was found by |
| AuthService.StoredToken | packages/backend/src/services/authService.ts:301-303 | findUnique by digest: a row holding the digest, or none does |
| AuthService.RefreshOutcome | packages/backend/src/services/authService.ts:298-346 | 401 when the digest is unknown, the row expired or its user is gone; otherwise fresh claims for the stored user |
| AuthService.RefreshAccessToken | packages/backend/src/services/authService.ts:292-366 | answers RefreshOutcome, the corrected refresh without the JWT check; deletes exactly the expired row, and otherwise changes nothing |
| AuthService.RefreshAsWritten | packages/backend/src/services/authService.ts:292-296 | a token that is not a valid signed JWT is 401 "Invalid refresh token" |
| AuthService.RefreshAsWrittenRejectsIssuedTokens | packages/backend/src/services/authService.ts:386-415 | the hex refresh token login hands out is never a JWT, so as written every refresh is 401 |
| AuthService.LoginThenRefresh | packages/backend/src/services/authService.ts:384-398 | the corrected refresh honours a login's token for seven days with the user's claims |
| AuthService.LoggedOut | packages/backend/src/services/authService.ts:372-377 | every row with the token's digest is removed and every other row kept |
| AuthService.Logout | packages/backend/src/services/authService.ts:371-379 | only the refresh-token rows change, to LoggedOut, and the answer is "Logged out successfully" |
| AuthService.LogoutRevokes | packages/backend/src/services/authService.ts:371-379 | after logout the token refreshes nothing |
| Admin.AdminGate | packages/backend/src/routes/admin.ts:8-9 | a request reaches an audit route exactly when its Bearer token verifies to ADMIN claims; otherwise 401 or 403 |
| Admin.DateFilter | packages/backend/src/routes/admin.ts:33-37 | a createdAt range exactly when a start or end date is given, with just those bounds, admitting exactly the instants between them |
| Admin.AuditWhere | packages/backend/src/routes/admin.ts:27-37 | the filter holds exactly the column parameters supplied, and a row passes it exactly when it agrees with each and falls within the dates |
| Admin.QueryOr | packages/backend/src/routes/admin.ts:23-24 | limit and offset are the numbers given, or 100 and 0 |
| Admin.AuditList | packages/backend/src/routes/admin.ts:39-55 | the page is exactly the skip/take window of the filtered rows newest first (equal timestamps in table order), with the filtered count |
| Admin.FilterSame | packages/backend/src/routes/admin.ts:39-55 | two tests that agree on every row keep the same rows |
| Admin.WhereAsks | packages/backend/src/routes/admin.ts:27-37 | the filter's test on a row is exactly what the query asks of it |
| Admin.WindowOfNewestFirst | packages/backend/src/routes/admin.ts:39-55 | a window of the newest-first rows holds only wanted table rows, newest first, as many as limit and offset allow |
| Admin.NewestFirstMembers | packages/backend/src/routes/admin.ts:39-55 | the newest-first rows are the wanted table rows, as many as the filter keeps |
| Admin.WindowInside | packages/backend/src/routes/admin.ts:39-55 | a window of a descending list keeps its order and its members |
| Admin.PageOfWanted | packages/backend/src/routes/admin.ts:39-55 | a window of the rows the filter passes is a window of the rows the query asks for |
| Admin.SumAppend | packages/backend/src/routes/admin.ts:315-323 | the sum over two lists joined is the sum of their sums |
| Admin.SumRemove | packages/backend/src/routes/admin.ts:315-323 | taking one row out of a list takes its term out of the sum |
| Admin.SumPermutation | packages/backend/src/routes/admin.ts:315-323 | a sum does not depend on the order of its rows |
| Admin.SumFilter | packages/backend/src/routes/admin.ts:315-323 | summing over the rows a test keeps is summing the masked amount over all rows |
| Admin.GroupBy | packages/backend/src/routes/admin.ts:58-65 | one group per key that occurs among the rows |
| Admin.GroupByTotals | packages/backend/src/routes/admin.ts:58-65 | each group counts exactly the rows with its key and sums exactly their amounts |
| Admin.FilterNone | packages/backend/src/routes/admin.ts:39-55 | nothing passes a test no row satisfies |
| Admin.AuditTransactions | packages/backend/src/routes/admin.ts:15-78 | the gate's refusal exactly when it refuses; otherwise the asked-for transactions' window, count and totals per type and status |
| Admin.AuditOrders | packages/backend/src/routes/admin.ts:84-148 | the same for payment orders, with amount and diamonds per status and provider |
| Admin.AuditGifts | packages/backend/src/routes/admin.ts:154-222 | the same for gifts, with count and value per gift type |
| Admin.NewestFirst | packages/backend/src/routes/admin.ts:255-312 | the rows a test picks, each as often as in the table, newest first |
| Admin.TotalOfNewest | packages/backend/src/routes/admin.ts:315-323 | a total over the newest-first list equals the total over the table, whatever its order |
| Admin.Gather | packages/backend/src/routes/admin.ts:249-341 | each list holds exactly the user's rows in the period, newest first; each total sums its list; netFlow is purchased plus received minus sent minus withdrawn |
| Admin.UserLedger | packages/backend/src/routes/admin.ts:228-347 | the gate's refusal, 404 for an unknown user, otherwise Gather over the period asked for |
| Admin.GiftChangesFlow | packages/backend/src/routes/admin.ts:340 | a new gift in the period adds its value to the receiver's net flow and takes it from the giver's |
| Admin.GiftMovesFlow | packages/backend/src/routes/admin.ts:340 | a gift between two users moves its value from the giver's net flow to the receiver's and changes no one else's |
| Admin.OrderAddsFlow | packages/backend/src/routes/admin.ts:315-318 | a new order adds its diamonds to its owner's net flow exactly when it succeeded in the period |
| LegacySocket.RelayOf | packages/backend/src/config/websocket.ts:26-95 | each relayed event goes to its addressee's room with the payload the addressee is told |
| LegacySocket.OnSocket | packages/backend/src/config/websocket.ts:98-110 | the first user in registry order registered on the socket, or none is |
| LegacySocket.KeysAfterSet | packages/backend/src/config/websocket.ts:16-23 | after set, the key order lists every key once: a new key last, an existing one in place |
| LegacySocket.DeleteKeepsOrder | packages/backend/src/config/websocket.ts:98-110 | deleting a key keeps the others once each, in order |
| LegacySocket.SocketServer.constructor | packages/backend/src/config/websocket.ts:9 | the registry, rooms and emissions start empty |
| LegacySocket.SocketServer.Register | packages/backend/src/config/websocket.ts:16-23 | the user maps to this socket, the rooms become Join of the user's room, everyone is told the user is online |
| LegacySocket.Join | packages/backend/src/config/websocket.ts:17 | after a join the room exists and a socket is in a room exactly when it was before or it is the joining socket in that room |
| LegacySocket.JoinThenLeaveAll | packages/backend/src/config/websocket.ts:16-23 | joining a room and then disconnecting leaves the same memberships as disconnecting alone |
| LegacySocket.SocketServer.Disconnect | packages/backend/src/config/websocket.ts:98-110 | the socket leaves every room; the first user registered on it is removed and everyone is told it went offline; with no such user the registry and emissions are unchanged |
| LegacySocket.SocketServer.GetOnlineUsers | packages/backend/src/config/websocket.ts:116-118 | the online users, each once |
| LegacySocket.SocketServer.CallEnd | packages/backend/src/config/websocket.ts:52-60 | one call-ended emission per listed participant, in order; none without a list |
| LegacySocket.SocketServer.Relay | packages/backend/src/config/websocket.ts:26-95 | exactly one emission, RelayOf the event, and no other change |
| LegacySocket.LeaveAll | packages/backend/src/config/websocket.ts:98-110 | after a socket closes, a socket is in a room exactly when it was before and is not the closed one; no room is left empty |
| LegacySocket.LeaveAllAgain | packages/backend/src/config/websocket.ts:98-110 | leaving all rooms twice is leaving them once |
| LegacySocket.RegisterThenDisconnect | packages/backend/src/config/websocket.ts:16-23 | registering a new user on a fresh socket and closing it gives back the registry as it was |
| LegacySocket.DisconnectLeavesSecondRegistration | packages/backend/src/config/websocket.ts:98-110 | a socket registered under two users leaves the second online after it closes |

## Left out

- Network and process I/O are not modelled: HTTP transport, socket.io and `ws` delivery, Redis connections, logging, `initialize` and `shutdown` wiring. Emitted frames are recorded in order, and delivery is assumed.
- Library and environment calls are parameters: the clock, `crypto.randomInt` and `randomBytes`, SHA-256, JWT signing and verification, the payment provider's order creation and HMAC signature check, `new Date(text)`, and the answers of the mobile app's HTTP calls.
- The Prisma schema is not part of this model. Unique keys (order and ledger idempotency keys, agency codes, refresh-token digests) and foreign keys are taken from how the services use them. `Accounts.Consistent` states them.
- errorHandler is not part of this model. A thrown `AppError` is modelled as its status and message, and other errors by their message.
- The wording of database errors is not modelled, only their cause.
- Concurrency is not modelled: each request runs to completion before the next, so races between requests, and the atomicity of `prisma.$transaction`, hold trivially.
- Floating point is not modelled: every number is an exact integer.
- Commission (Wallet.Commission): the source computes `Math.floor(diamonds * (commissionRate / 100))` in IEEE doubles, where the model takes the exact floor. The two can differ by one when the exact share is a whole number: a rate of 29 on 100 diamonds gives 28 in the source, since 100 * 0.29 is 28.999999999999996, and 29 in the model. commissionRate is a Float column, and the model's rate is a whole percentage, so a fractional rate such as 12.5 is not represented.
- SplitGift (Wallet.SplitGift): inherits Commission's exact rounding, so the split can differ by one diamond from the source's. Host earnings are still the gift minus the commission, so conservation (Wallet.GiftConserves) holds whatever the commission is.
- SendGiftRoute (WalletRoutes.SendGiftRoute): the recorded split inherits Commission's exact rounding.
- UserRooms (Messaging.UserRooms): the unread counts are the corrected UnreadCount of the first finding below, where getUserRooms calls the as-written count. Rooms without lastMessageAt are listed after all others. The source's `orderBy: { lastMessageAt: 'desc' }` leaves where NULLs go to the database, and PostgreSQL puts them first.
- GetRooms (ChatRoutes.GetRooms): lists UserRooms, so it carries the corrected unread counts.
- GetMessages (ChatRoutes.GetMessages): answers the corrected unread count, where chat.ts:45 answers the as-written one.
- GetUnread (ChatRoutes.GetUnread): answers the corrected unread count, where chat.ts:68 answers the as-written one.
- Direct (ChatRoutes.Direct): answers the corrected unread count, where chat.ts:151 answers the as-written one.
- HandleJoinRoom (Gateway.WebSocketService.HandleJoinRoom): its `roomJoined` reply carries the corrected unread count.
- JoinDirect (Gateway.WebSocketService.JoinDirect): its `roomJoined` reply carries the corrected unread count, where websocketService.ts:188 sends the as-written one.
- AnswerJoin (Gateway.WebSocketService.AnswerJoin): `roomJoined` carries the corrected unread count.
- Prefix (Common.Prefix): counts Unicode scalars, where `substring` counts UTF-16 code units. A character outside the Basic Multilingual Plane that straddles the cut is split into a lone surrogate by the source and kept whole or dropped by the model.
- CreateMessage (Messaging.MessageService.CreateMessage): the preview is Prefix of the content, so it counts Unicode scalars, not UTF-16 code units.
- LoginFound (AuthService.LoginFound): checks the code through LoginAs, the corrected lookup of the second finding below, which reads only the records sent to the contact the user was found by. The source's lookup ORs the email and the phone given in the request.
- LoginAttempts (AuthService.LoginAttempts): stated about the record the corrected lookup checks.
- LockedAfterFiveFailures (AuthService.LockedAfterFiveFailures): stated about the corrected lookup.
- SentCodeLogsIn (AuthService.SentCodeLogsIn): stated about the corrected lookup.
- RefreshAccessToken (AuthService.RefreshAccessToken): models the corrected refresh of the third finding below. It looks the token up by its digest without first verifying it as a signed JWT, so it answers where the source answers 401 for every token a login issued.
- AuditList (Admin.AuditList): rows with equal createdAt stay in table order. The database leaves their order open.
- TransactionsRoute (WalletRoutes.TransactionsRoute): ledger rows with equal createdAt stay in table order. The database leaves their order open.
- PaymentOrdersRoute (WalletRoutes.PaymentOrdersRoute): orders with equal createdAt stay in table order. The database leaves their order open.
- Query parameters are naturals. Negative numbers, or numbers `parseInt` reads from garbage, are out of scope.
- Password hashing at signup is not modelled, and neither are the `include` and `select` projections of responses.
- Time zones and daylight saving are not modelled: dates are plain (year, month, day) triples and instants are milliseconds, and the seven-day refresh lifetime is a fixed number of milliseconds.
- GET /admin/stats (routes/admin.ts:353-419) is not modelled. It only counts and sums whole tables through the database's aggregates.
- AuthService.LoginWithOtp: `findFirst` by email or phone may find any of several users sharing a contact, so the model lets any of them be the one found. The code is then checked through LoginAs, the corrected lookup of the second finding below.
- Wallet.VerifyPayment: a FAILED order is not final, and a later valid signature still settles it, as the source does. Only SUCCESS is final.
- Wallet.CreateTopupOrder: a repeated idempotency key returns the stored order without checking that it belongs to the caller, as the source does.
- AgencyRoutes.Leave: the host flag set on joining is kept on leaving, as the source does.
- AgencyRoutes.Info: reads the agency named in the caller's token, not the stored membership, as the source does.
- AuthService.SendOtp: in production the code's record is stored before delivery fails, as the source does.
- LegacySocket.SocketServer.Disconnect: removes only the first user registered on the closing socket, as the source's loop does. Room membership is a set of socket ids per room, without socket.io's adapter internals.
- Initialize (ChatStore.ChatState.Initialize): each call of the source registers a fresh `connected` closure, so a second call leaves two handlers that both set isConnected. The model names that handler by one constant id, so the two merge into one. The state they produce is the same.
- ClientSocket.WebSocketService.HandleMessage: a frame that is not valid JSON is not modelled. Frames arriving from the gateway are the gateway's own envelopes.

## Findings

| source | as written | input that shows it | evidently intended | confidence | as-written member | corrected member |
|---|---|---|---|---|---|---|
| packages/backend/src/services/messageService.ts:268-277 | the unread filter `readBy: { array_contains: userId, not: true }` is a conjunction, so it counts the messages from others that the user HAS read | a room with three messages from another user, one of them read by the caller: counts 1 where 2 are unread | count the messages from others whose readBy lacks the user | medium, not executed | Messaging.SeedRoomThreeCounts | Messaging.UnreadCount |
| packages/backend/src/services/authService.ts:201-217 | the code is looked up by the email OR the phone given in the request, while the user was found by the email alone | the victim's email plus the requester's own phone, with the code that was sent to that phone: logs in as the victim | check only codes sent to the contact the user was found by | high, not executed | AuthService.LoginAsWrittenAcceptsAnotherContact | AuthService.LoginUsesOwnContact |
| packages/backend/src/services/authService.ts:292-296 | refresh first verifies the token as a signed JWT, but login hands out 64 hex digits from `randomBytes` | any refresh token a login returned: refresh answers 401 "Invalid refresh token" | look the token up by its SHA-256 digest, as the rest of the handler does | high, not executed | AuthService.RefreshAsWrittenRejectsIssuedTokens | AuthService.LoginThenRefresh |
