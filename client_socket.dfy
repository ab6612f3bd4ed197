/** The mobile app's WebSocket client (mobile services/websocketService.ts):
    one socket to the gateway, a connect that is shared while pending,
    reconnection with exponential back-off, a keep-alive ping, and
    subscribers per message type. Frames written to the socket are
    recorded as the gateway parses them; frames arriving from the gateway
    are the gateway's own envelopes. The socket's readyState changes only
    through the events modelled here: opening, closing, the connect
    timeout and an explicit disconnect. */
module ClientSocket {
  import opened Common
  import Gateway

  /** The readyState of the browser socket. */
  datatype ReadyState = Connecting | Open | Closed

  /** How a call to connect() settles at once: it hands back the promise
      of the attempt already under way, resolves because the socket is
      open, rejects, or starts a new socket whose opening or timeout
      settles it later. */
  datatype ConnectResult = Pending | AlreadyOpen | Rejected(reason: string) | Opening

  /** A subscriber, named (a function value in the source). */
  type HandlerId = string

  /** What a subscriber is called with: the envelope's payload, or (for a
      wildcard subscriber) the whole envelope. */
  datatype Arg = PayloadOf(payload: Gateway.Payload) | Whole(envelope: Gateway.Envelope)

  datatype Call = Call(handler: HandlerId, arg: Arg)

  const MaxReconnectAttempts: nat := 5
  /** Milliseconds before the first reconnect; each further one doubles. */
  const ReconnectDelay: nat := 1000

  const NoTokenText: string := "No access token available. Please login first."
  const TimeoutText: string := "WebSocket connection timeout"

  /** The subscriber type that receives every envelope whole. */
  const Wildcard: string := "*"

  function Pow2(n: nat): (p: nat)
    ensures p >= 1
  {
    if n == 0 then 1 else 2 * Pow2(n - 1)
  }

  /** attemptReconnect's delay when `attempts` reconnects were already
      scheduled since the last open: none once five were, else
      1000 * 2^attempts milliseconds. */
  function Backoff(attempts: nat): (d: Option<nat>)
    ensures d.Some? <==> attempts < MaxReconnectAttempts
    ensures d.Some? ==> d.value >= ReconnectDelay
  {
    if attempts >= MaxReconnectAttempts then None else Some(ReconnectDelay * Pow2(attempts))
  }

  /** The delays of the five reconnects double from one second, and no
      sixth is scheduled. */
  lemma {:induction false} BackoffSchedule()
    ensures Backoff(0) == Some(1000) && Backoff(1) == Some(2000) && Backoff(2) == Some(4000)
    ensures Backoff(3) == Some(8000) && Backoff(4) == Some(16000)
    ensures forall n: nat :: n >= 5 ==> Backoff(n).None?
  {
    assert Pow2(4) == 16 by {
      assert Pow2(1) == 2;
      assert Pow2(2) == 4;
      assert Pow2(3) == 8;
    }
  }

  /** Each scheduled delay is twice the one before. */
  lemma {:induction false} BackoffDoubles(n: nat)
    requires n + 1 < MaxReconnectAttempts
    ensures Backoff(n + 1).value == 2 * Backoff(n).value
  {
    calc {
      Backoff(n + 1).value;
      ReconnectDelay * Pow2(n + 1);
      ReconnectDelay * (2 * Pow2(n));
      2 * (ReconnectDelay * Pow2(n));
    }
  }

  /** The handlers subscribed to a type; none when the type was never
      subscribed. */
  function HandlersFor(handlers: map<string, set<HandlerId>>, kind: string): set<HandlerId> {
    if kind in handlers then handlers[kind] else {}
  }

  /** on(kind, h): h joins kind's set, created when missing. */
  function Subscribed(handlers: map<string, set<HandlerId>>, kind: string, h: HandlerId)
    : (r: map<string, set<HandlerId>>)
    ensures r.Keys == handlers.Keys + {kind}
    ensures HandlersFor(r, kind) == HandlersFor(handlers, kind) + {h}
    ensures forall k :: k != kind ==> HandlersFor(r, k) == HandlersFor(handlers, k)
  {
    handlers[kind := HandlersFor(handlers, kind) + {h}]
  }

  /** off(kind, h): h leaves kind's set; an unknown type is left alone
      (an emptied set stays in the map). */
  function Unsubscribed(handlers: map<string, set<HandlerId>>, kind: string, h: HandlerId)
    : (r: map<string, set<HandlerId>>)
    ensures r.Keys == handlers.Keys
    ensures HandlersFor(r, kind) == HandlersFor(handlers, kind) - {h}
    ensures forall k :: k != kind ==> HandlersFor(r, k) == HandlersFor(handlers, k)
  {
    if kind in handlers then handlers[kind := handlers[kind] - {h}] else handlers
  }

  /** off undoes on for a handler that was not yet subscribed; on twice
      is on once. */
  lemma {:induction false} OffUndoesOn(handlers: map<string, set<HandlerId>>, kind: string, h: HandlerId)
    requires h !in HandlersFor(handlers, kind)
    ensures forall k :: HandlersFor(Unsubscribed(Subscribed(handlers, kind, h), kind, h), k) == HandlersFor(handlers, k)
    ensures Subscribed(Subscribed(handlers, kind, h), kind, h) == Subscribed(handlers, kind, h)
  {
    var s := Subscribed(handlers, kind, h);
    assert HandlersFor(s, kind) + {h} == HandlersFor(s, kind);
  }

  /** The frame `{ type, payload }` as the gateway parses it. */
  function Frame(kind: string, payload: Gateway.ClientPayload): Gateway.Inbound {
    Gateway.Parsed(kind, Some(payload))
  }

  /** What send() writes: the frame when the socket is open, else nothing. */
  function Outgoing(socket: Option<ReadyState>, frame: Gateway.Inbound): (r: seq<Gateway.Inbound>)
    ensures socket == Some(Open) ==> r == [frame]
    ensures socket != Some(Open) ==> r == []
  {
    if socket == Some(Open) then [frame] else []
  }

  const NoFields: Gateway.ClientPayload := Gateway.ClientPayload(None, None, None, None, None, None)

  function JoinRoomFrame(roomId: string): Gateway.Inbound {
    Frame("joinRoom", NoFields.(roomId := Some(roomId)))
  }

  function LeaveRoomFrame(roomId: string): Gateway.Inbound {
    Frame("leaveRoom", NoFields.(roomId := Some(roomId)))
  }

  /** sendMessage with the message type 'text' unless another is given. */
  function SendMessageFrame(roomId: string, content: string, kind: Option<string>): Gateway.Inbound {
    Frame("sendMessage", NoFields.(roomId := Some(roomId), content := Some(content),
                                   kind := Some(if kind.Some? then kind.value else "text")))
  }

  function TypingFrame(roomId: string, isTyping: bool): Gateway.Inbound {
    Frame("typing", NoFields.(roomId := Some(roomId), isTyping := Some(isTyping)))
  }

  function MarkReadFrame(roomId: string, sequenceId: int): Gateway.Inbound {
    Frame("markRead", NoFields.(roomId := Some(roomId), sequenceId := Some(sequenceId)))
  }

  const PingFrame: Gateway.Inbound := Frame("ping", NoFields)

  /** Every frame the client builds reaches one of the gateway's handlers
      with a payload, so none ends in the gateway's format error. */
  lemma {:induction false} FramesAreHandled(roomId: string, content: string, kind: Option<string>, t: bool, n: int)
    ensures forall f :: f in [JoinRoomFrame(roomId), LeaveRoomFrame(roomId), SendMessageFrame(roomId, content, kind),
                              TypingFrame(roomId, t), MarkReadFrame(roomId, n), PingFrame] ==>
      f.Parsed? && f.kind in Gateway.HandledKinds && !Gateway.Malformed(f)
  {
  }

  /** The client's joinRoom names the room by its id, and the gateway
      reads that field as the id of the other user of a direct room. */
  lemma {:induction false} JoinRoomReadAsUser(roomId: string)
    requires roomId != ""
    ensures Gateway.JoinTarget(JoinRoomFrame(roomId).payload.value) == Some(roomId)
  {
  }

  /** `handlers.forEach(h => h(arg))`: every subscriber is called once
      with arg (in an order the model leaves open). */
  method Invoke(hs: set<HandlerId>, arg: Arg) returns (calls: seq<Call>)
    ensures |calls| == |hs|
    ensures forall c :: c in calls <==> c.arg == arg && c.handler in hs
    ensures forall i, j :: 0 <= i < j < |calls| ==> calls[i].handler != calls[j].handler
  {
    calls := [];
    var rest := hs;
    while rest != {}
      invariant rest <= hs
      invariant |calls| + |rest| == |hs|
      invariant forall c :: c in calls <==> c.arg == arg && c.handler in hs - rest
      invariant forall i, j :: 0 <= i < j < |calls| ==> calls[i].handler != calls[j].handler
      decreases |rest|
    {
      var h :| h in rest;
      assert forall i :: 0 <= i < |calls| ==> calls[i] in calls;
      calls := calls + [Call(h, arg)];
      rest := rest - {h};
    }
  }

  class WebSocketService {
    /** The socket, absent before the first connect and after disconnect. */
    var socket: Option<ReadyState>
    var reconnectAttempts: nat
    /** A connect is under way (connectionPromise is set). */
    var connecting: bool
    /** The keep-alive interval runs. */
    var pinging: bool
    var handlers: map<string, set<HandlerId>>
    /** Frames written to the socket, oldest first. */
    var sent: seq<Gateway.Inbound>

    ghost predicate Valid()
      reads this
    {
      && reconnectAttempts <= MaxReconnectAttempts
      && (pinging ==> socket == Some(Open))
      && (connecting ==> socket == Some(Connecting))
    }

    constructor ()
      ensures Valid()
      ensures socket == None && reconnectAttempts == 0 && !connecting && !pinging
      ensures handlers == map[] && sent == []
    {
      socket := None;
      reconnectAttempts := 0;
      connecting := false;
      pinging := false;
      handlers := map[];
      sent := [];
    }

    /** isConnected(). */
    predicate IsConnected()
      reads this
    {
      socket == Some(Open)
    }

    /** connect(), up to the point where it settles or waits: a pending
        attempt is shared, an open socket resolves at once, a missing or
        empty stored token rejects, and otherwise a new socket starts
        connecting. `token` is what storage holds under accessToken. */
    method Connect(token: Option<string>) returns (r: ConnectResult)
      requires Valid()
      modifies this
      ensures Valid()
      ensures reconnectAttempts == old(reconnectAttempts) && pinging == old(pinging)
      ensures handlers == old(handlers) && sent == old(sent)
      ensures old(connecting) ==> r == Pending && unchanged(this)
      ensures !old(connecting) && old(socket) == Some(Open) ==> r == AlreadyOpen && unchanged(this)
      ensures !old(connecting) && old(socket) != Some(Open) && !Truthy(token) ==>
        r == Rejected(NoTokenText) && unchanged(this)
      ensures !old(connecting) && old(socket) != Some(Open) && Truthy(token) ==>
        r == Opening && socket == Some(Connecting) && connecting
    {
      if connecting {
        return Pending;
      }
      if socket == Some(Open) {
        return AlreadyOpen;
      }
      if !Truthy(token) {
        return Rejected(NoTokenText);
      }
      socket := Some(Connecting);
      connecting := true;
      r := Opening;
    }

    /** onopen: the back-off starts over, the pending connect resolves and
        the keep-alive starts. */
    method OnOpen()
      requires Valid()
      requires socket == Some(Connecting)
      modifies this
      ensures Valid()
      ensures socket == Some(Open) && reconnectAttempts == 0 && !connecting && pinging
      ensures handlers == old(handlers) && sent == old(sent)
    {
      socket := Some(Open);
      reconnectAttempts := 0;
      connecting := false;
      pinging := true;
    }

    /** The connect timeout: when the socket is still not open the pending
        connect rejects; otherwise nothing happens. */
    method OnTimeout() returns (rejected: bool)
      requires Valid()
      modifies this
      ensures Valid()
      ensures rejected <==> old(socket) != Some(Open)
      ensures rejected ==> !connecting
      ensures !rejected ==> connecting == old(connecting)
      ensures socket == old(socket) && pinging == old(pinging) && reconnectAttempts == old(reconnectAttempts)
      ensures handlers == old(handlers) && sent == old(sent)
    {
      rejected := socket != Some(Open);
      if rejected {
        connecting := false;
      }
    }

    /** onclose: the pending connect is dropped, the keep-alive stops and
        a reconnect is scheduled after the back-off delay, if any is left.
        The handler also runs for a socket closed by disconnect, so an
        explicit disconnect is followed by a reconnect too. */
    method OnClose() returns (delay: Option<nat>)
      requires Valid()
      modifies this
      ensures Valid()
      ensures !connecting && !pinging
      ensures socket == (if old(socket).Some? then Some(Closed) else None)
      ensures delay == Backoff(old(reconnectAttempts))
      ensures reconnectAttempts == if delay.Some? then old(reconnectAttempts) + 1 else old(reconnectAttempts)
      ensures handlers == old(handlers) && sent == old(sent)
    {
      if socket.Some? {
        socket := Some(Closed);
      }
      connecting := false;
      pinging := false;
      delay := AttemptReconnect();
    }

    /** attemptReconnect: counts the attempt and returns its delay, or
        gives up after the fifth. */
    method AttemptReconnect() returns (delay: Option<nat>)
      requires Valid()
      modifies this
      ensures Valid()
      ensures delay == Backoff(old(reconnectAttempts))
      ensures reconnectAttempts == if delay.Some? then old(reconnectAttempts) + 1 else old(reconnectAttempts)
      ensures socket == old(socket) && connecting == old(connecting) && pinging == old(pinging)
      ensures handlers == old(handlers) && sent == old(sent)
    {
      if reconnectAttempts >= MaxReconnectAttempts {
        return None;
      }
      reconnectAttempts := reconnectAttempts + 1;
      delay := Some(ReconnectDelay * Pow2(reconnectAttempts - 1));
    }

    /** disconnect(): stops the keep-alive, drops the socket (its close
        event follows as OnClose) and any pending connect. */
    method Disconnect()
      requires Valid()
      modifies this
      ensures Valid()
      ensures socket == None && !connecting && !pinging
      ensures reconnectAttempts == old(reconnectAttempts) && handlers == old(handlers) && sent == old(sent)
    {
      pinging := false;
      socket := None;
      connecting := false;
    }

    /** send(type, payload): written only while the socket is open,
        otherwise dropped with a warning. */
    method Send(kind: string, payload: Gateway.ClientPayload)
      requires Valid()
      modifies this
      ensures Valid()
      ensures sent == old(sent) + Outgoing(old(socket), Frame(kind, payload))
      ensures socket == old(socket) && connecting == old(connecting) && pinging == old(pinging)
      ensures reconnectAttempts == old(reconnectAttempts) && handlers == old(handlers)
    {
      if socket == Some(Open) {
        sent := sent + [Frame(kind, payload)];
      }
    }

    /** One tick of the keep-alive interval. */
    method PingTick()
      requires Valid()
      modifies this
      ensures Valid()
      ensures sent == old(sent) + (if old(pinging) then [PingFrame] else [])
      ensures socket == old(socket) && connecting == old(connecting) && pinging == old(pinging)
      ensures reconnectAttempts == old(reconnectAttempts) && handlers == old(handlers)
    {
      if pinging {
        Send("ping", NoFields);
      }
    }

    method On(kind: string, h: HandlerId)
      requires Valid()
      modifies this
      ensures Valid()
      ensures handlers == Subscribed(old(handlers), kind, h)
      ensures socket == old(socket) && connecting == old(connecting) && pinging == old(pinging)
      ensures reconnectAttempts == old(reconnectAttempts) && sent == old(sent)
    {
      handlers := handlers[kind := HandlersFor(handlers, kind) + {h}];
    }

    method Off(kind: string, h: HandlerId)
      requires Valid()
      modifies this
      ensures Valid()
      ensures handlers == Unsubscribed(old(handlers), kind, h)
      ensures socket == old(socket) && connecting == old(connecting) && pinging == old(pinging)
      ensures reconnectAttempts == old(reconnectAttempts) && sent == old(sent)
    {
      if kind in handlers {
        handlers := handlers[kind := handlers[kind] - {h}];
      }
    }

    method JoinRoom(roomId: string)
      requires Valid()
      modifies this
      ensures Valid()
      ensures sent == old(sent) + Outgoing(old(socket), JoinRoomFrame(roomId))
      ensures socket == old(socket) && connecting == old(connecting) && pinging == old(pinging)
      ensures reconnectAttempts == old(reconnectAttempts) && handlers == old(handlers)
    {
      Send("joinRoom", NoFields.(roomId := Some(roomId)));
    }

    method LeaveRoom(roomId: string)
      requires Valid()
      modifies this
      ensures Valid()
      ensures sent == old(sent) + Outgoing(old(socket), LeaveRoomFrame(roomId))
      ensures socket == old(socket) && connecting == old(connecting) && pinging == old(pinging)
      ensures reconnectAttempts == old(reconnectAttempts) && handlers == old(handlers)
    {
      Send("leaveRoom", NoFields.(roomId := Some(roomId)));
    }

    method SendMessage(roomId: string, content: string, kind: Option<string>)
      requires Valid()
      modifies this
      ensures Valid()
      ensures sent == old(sent) + Outgoing(old(socket), SendMessageFrame(roomId, content, kind))
      ensures socket == old(socket) && connecting == old(connecting) && pinging == old(pinging)
      ensures reconnectAttempts == old(reconnectAttempts) && handlers == old(handlers)
    {
      var k := if kind.Some? then kind.value else "text";
      Send("sendMessage", NoFields.(roomId := Some(roomId), content := Some(content), kind := Some(k)));
    }

    method SendTyping(roomId: string, isTyping: bool)
      requires Valid()
      modifies this
      ensures Valid()
      ensures sent == old(sent) + Outgoing(old(socket), TypingFrame(roomId, isTyping))
      ensures socket == old(socket) && connecting == old(connecting) && pinging == old(pinging)
      ensures reconnectAttempts == old(reconnectAttempts) && handlers == old(handlers)
    {
      Send("typing", NoFields.(roomId := Some(roomId), isTyping := Some(isTyping)));
    }

    method MarkRead(roomId: string, sequenceId: int)
      requires Valid()
      modifies this
      ensures Valid()
      ensures sent == old(sent) + Outgoing(old(socket), MarkReadFrame(roomId, sequenceId))
      ensures socket == old(socket) && connecting == old(connecting) && pinging == old(pinging)
      ensures reconnectAttempts == old(reconnectAttempts) && handlers == old(handlers)
    {
      Send("markRead", NoFields.(roomId := Some(roomId), sequenceId := Some(sequenceId)));
    }

    /** handleMessage: the subscribers of the envelope's type get its
        payload, then the wildcard subscribers get the whole envelope. */
    method HandleMessage(e: Gateway.Envelope) returns (calls: seq<Call>)
      ensures |calls| == |HandlersFor(handlers, e.kind)| + |HandlersFor(handlers, Wildcard)|
      ensures forall i :: 0 <= i < |calls| ==>
        (calls[i].arg.PayloadOf? <==> i < |HandlersFor(handlers, e.kind)|)
      ensures forall c :: c in calls <==>
        || (c.arg == PayloadOf(e.payload) && c.handler in HandlersFor(handlers, e.kind))
        || (c.arg == Whole(e) && c.handler in HandlersFor(handlers, Wildcard))
    {
      var direct := Invoke(HandlersFor(handlers, e.kind), PayloadOf(e.payload));
      var wild := Invoke(HandlersFor(handlers, Wildcard), Whole(e));
      calls := direct + wild;
      assert forall i :: 0 <= i < |direct| ==> direct[i] in direct;
      assert forall i :: 0 <= i < |wild| ==> wild[i] in wild;
    }
  }
}
