/** The browser's push-channel client `ThreatStreamWebSocket`: status
    notifications, the manual-close flag, bounded reconnection with doubling
    delays, heartbeat filtering and the message/status handler sets.

    The browser socket is reduced to its ready state; its open, message, error
    and close events are calls of the Handle* methods, and the browser's own
    changes of the ready state are calls of SetReadyState. A handler is known by
    its identity; what it does is not modelled, and the log fields record every
    call made to one. */
module WebSocketClient {
  import opened Wrappers
  import opened Numeric
  import opened Seqs

  /** The statuses passed to status handlers. */
  datatype Status = Connecting | Connected | Disconnected | Errored

  /** `WebSocket.readyState`. */
  datatype ReadyState = SocketConnecting | SocketOpen | SocketClosing | SocketClosed

  /** The identity of a registered handler function. */
  type HandlerId = nat

  /** What the client sends, before JSON encoding. */
  datatype Outgoing = Handshake(epoch: int) | StateRequest | Payload(json: string)

  /** A decoded server message: its `type` tag and the rest of it. */
  datatype Incoming = Incoming(kind: string, body: string)

  /** One call of a status handler, and one call of a message handler. */
  datatype StatusNotice = StatusNotice(handler: HandlerId, status: Status)
  datatype Delivery = Delivery(handler: HandlerId, message: Incoming)

  const MAX_RECONNECT_ATTEMPTS: nat := 5
  const RECONNECT_DELAY: nat := 3000
  const HEARTBEAT := "heartbeat"

  /** The delay (ms) before reconnection attempt n, for n >= 1. */
  function ReconnectDelay(n: nat): (d: nat)
    requires n >= 1
  {
    RECONNECT_DELAY * Pow2(n - 1)
  }

  /** The five delays are 3, 6, 12, 24 and 48 seconds, each longer than the last. */
  lemma ReconnectSchedule()
    ensures forall n :: 1 <= n <= MAX_RECONNECT_ATTEMPTS ==> ReconnectDelay(n) == RECONNECT_SCHEDULE[n - 1]
    ensures forall m, n :: 1 <= m < n ==> ReconnectDelay(m) < ReconnectDelay(n)
  {
    assert Pow2(0) == 1 && Pow2(1) == 2 && Pow2(2) == 4 && Pow2(3) == 8 && Pow2(4) == 16;
    forall m, n | 1 <= m < n
      ensures ReconnectDelay(m) < ReconnectDelay(n)
    {
      Pow2Increasing(m - 1, n - 1);
    }
  }

  const RECONNECT_SCHEDULE: seq<nat> := [3000, 6000, 12000, 24000, 48000]

  /** The calls made by `handlers.forEach(h => h(status))`. */
  function Notices(handlers: seq<HandlerId>, s: Status): seq<StatusNotice> {
    seq(|handlers|, k requires 0 <= k < |handlers| => StatusNotice(handlers[k], s))
  }

  /** The calls made by `handlers.forEach(h => h(message))`. */
  function Deliveries(handlers: seq<HandlerId>, m: Incoming): seq<Delivery> {
    seq(|handlers|, k requires 0 <= k < |handlers| => Delivery(handlers[k], m))
  }

  /** `Set.prototype.delete`: the set without h, in insertion order. */
  function Without(s: seq<HandlerId>, h: HandlerId): (r: seq<HandlerId>)
    ensures forall x :: x in r <==> x in s && x != h
    ensures NoDup(s) ==> NoDup(r)
    ensures IsSubsequence(r, s)
  {
    if |s| == 0 then []
    else
      var rest := Without(s[1..], h);
      assert s == [s[0]] + s[1..];
      if s[0] == h then
        SubsequenceSkip(rest, s[1..], s[0]);
        rest
      else
        assert ([s[0]] + rest)[1..] == rest;
        if NoDup(s) then
          assert forall j :: 1 <= j < |s| ==> s[j] != s[0];
          NoDupCons(s[0], rest);
          [s[0]] + rest
        else
        [s[0]] + rest
  }

  class ThreatStreamWebSocket {
    /** `ws`: the current socket's ready state, None when there is no socket. */
    var ws: Option<ReadyState>
    var messageHandlers: seq<HandlerId>
    var statusHandlers: seq<HandlerId>
    var reconnectAttempts: nat
    /** `reconnectTimer`: the delay of the last scheduled reconnection while its
        handle is kept (the handle itself is not modelled). */
    var reconnectTimer: Option<nat>
    var isManualClose: bool
    /** Every status-handler call so far, in order. */
    var statusLog: seq<StatusNotice>
    /** Every message-handler call so far, in order. */
    var deliveries: seq<Delivery>
    /** Every message transmitted on the socket, in order. */
    var sent: seq<Outgoing>

    /** The attempts never pass the cap, each handler is registered once, a
        pending timer carries a delay of the schedule and no heartbeat has ever
        reached a handler. */
    predicate Valid()
      reads this`reconnectAttempts, this`messageHandlers, this`statusHandlers, this`reconnectTimer, this`deliveries
    {
      reconnectAttempts <= MAX_RECONNECT_ATTEMPTS &&
      NoDup(messageHandlers) && NoDup(statusHandlers) &&
      (reconnectTimer.Some? ==> reconnectTimer.value in RECONNECT_SCHEDULE) &&
      forall k :: 0 <= k < |deliveries| ==> deliveries[k].message.kind != HEARTBEAT
    }

    constructor()
      ensures Valid()
      ensures ws == None && messageHandlers == [] && statusHandlers == []
      ensures reconnectAttempts == 0 && reconnectTimer == None && !isManualClose
      ensures statusLog == [] && deliveries == [] && sent == []
    {
      ws := None;
      messageHandlers := [];
      statusHandlers := [];
      reconnectAttempts := 0;
      reconnectTimer := None;
      isManualClose := false;
      statusLog := [];
      deliveries := [];
      sent := [];
    }

    /** notifyStatus: every status handler is called with s, in insertion order;
        a handler that throws does not stop the others. */
    method NotifyStatus(s: Status)
      modifies this`statusLog
      ensures statusLog == old(statusLog) + Notices(statusHandlers, s)
    {
      var i := 0;
      while i < |statusHandlers|
        invariant 0 <= i <= |statusHandlers|
        invariant statusLog == old(statusLog) + Notices(statusHandlers[..i], s)
      {
        assert Notices(statusHandlers[..i + 1], s) == Notices(statusHandlers[..i], s) + [StatusNotice(statusHandlers[i], s)];
        statusLog := statusLog + [StatusNotice(statusHandlers[i], s)];
        i := i + 1;
      }
      assert statusHandlers[..i] == statusHandlers;
    }

    /** attemptReconnect: nothing once the attempts reach 5; otherwise one more
        attempt is counted and a reconnection is scheduled after
        3000 * 2^(attempts - 1) ms. */
    method AttemptReconnect()
      requires Valid()
      modifies this`reconnectAttempts, this`reconnectTimer
      ensures Valid()
      ensures old(reconnectAttempts) >= MAX_RECONNECT_ATTEMPTS ==>
        reconnectAttempts == old(reconnectAttempts) && reconnectTimer == old(reconnectTimer)
      ensures old(reconnectAttempts) < MAX_RECONNECT_ATTEMPTS ==>
        reconnectAttempts == old(reconnectAttempts) + 1 && reconnectTimer == Some(ReconnectDelay(reconnectAttempts))
    {
      if reconnectAttempts >= MAX_RECONNECT_ATTEMPTS {
        return;
      }
      reconnectAttempts := reconnectAttempts + 1;
      ReconnectSchedule();
      reconnectTimer := Some(ReconnectDelay(reconnectAttempts));
    }

    /** connect: a no-op while the socket is open; otherwise the manual flag is
        cleared and 'connecting' announced, then either a new socket is opened or,
        when creating it throws, 'error' is announced and a reconnection tried. */
    method Connect(createThrows: bool)
      requires Valid()
      modifies this`ws, this`isManualClose, this`statusLog, this`reconnectAttempts, this`reconnectTimer
      ensures Valid()
      ensures old(ws) == Some(SocketOpen) ==>
        ws == old(ws) && isManualClose == old(isManualClose) && statusLog == old(statusLog) &&
        reconnectAttempts == old(reconnectAttempts) && reconnectTimer == old(reconnectTimer)
      ensures old(ws) != Some(SocketOpen) && !createThrows ==>
        ws == Some(SocketConnecting) && !isManualClose &&
        statusLog == old(statusLog) + Notices(statusHandlers, Connecting) &&
        reconnectAttempts == old(reconnectAttempts) && reconnectTimer == old(reconnectTimer)
      ensures old(ws) != Some(SocketOpen) && createThrows ==>
        ws == old(ws) && !isManualClose &&
        statusLog == old(statusLog) + Notices(statusHandlers, Connecting) + Notices(statusHandlers, Errored) &&
        (old(reconnectAttempts) >= MAX_RECONNECT_ATTEMPTS ==>
          reconnectAttempts == old(reconnectAttempts) && reconnectTimer == old(reconnectTimer)) &&
        (old(reconnectAttempts) < MAX_RECONNECT_ATTEMPTS ==>
          reconnectAttempts == old(reconnectAttempts) + 1 && reconnectTimer == Some(ReconnectDelay(reconnectAttempts)))
    {
      if ws == Some(SocketOpen) {
        return;
      }
      isManualClose := false;
      NotifyStatus(Connecting);
      if createThrows {
        NotifyStatus(Errored);
        AttemptReconnect();
      } else {
        ws := Some(SocketConnecting);
      }
    }

    /** The scheduled reconnection firing: it runs connect, so an open socket is
        left alone, and otherwise 'connecting' is announced and either a new
        socket is connecting or, when creating it throws, 'error' is announced
        and the next backoff attempt is scheduled. The timer field keeps the
        spent timer's id, as the source never clears it. */
    method ReconnectTimerFires(createThrows: bool)
      requires Valid() && reconnectTimer.Some?
      modifies this`ws, this`isManualClose, this`statusLog, this`reconnectAttempts, this`reconnectTimer
      ensures Valid()
      ensures old(ws) == Some(SocketOpen) ==>
        ws == old(ws) && isManualClose == old(isManualClose) && statusLog == old(statusLog) &&
        reconnectAttempts == old(reconnectAttempts) && reconnectTimer == old(reconnectTimer)
      ensures old(ws) != Some(SocketOpen) && !createThrows ==>
        ws == Some(SocketConnecting) && !isManualClose &&
        statusLog == old(statusLog) + Notices(statusHandlers, Connecting) &&
        reconnectAttempts == old(reconnectAttempts) && reconnectTimer == old(reconnectTimer)
      ensures old(ws) != Some(SocketOpen) && createThrows ==>
        ws == old(ws) && !isManualClose &&
        statusLog == old(statusLog) + Notices(statusHandlers, Connecting) + Notices(statusHandlers, Errored) &&
        (old(reconnectAttempts) >= MAX_RECONNECT_ATTEMPTS ==>
          reconnectAttempts == old(reconnectAttempts) && reconnectTimer == old(reconnectTimer)) &&
        (old(reconnectAttempts) < MAX_RECONNECT_ATTEMPTS ==>
          reconnectAttempts == old(reconnectAttempts) + 1 && reconnectTimer == Some(ReconnectDelay(reconnectAttempts)))
    {
      Connect(createThrows);
    }

    /** disconnect: the close is marked manual, a pending reconnection is
        cancelled, the socket is dropped and 'disconnected' announced. */
    method Disconnect()
      requires Valid()
      modifies this`isManualClose, this`reconnectTimer, this`ws, this`statusLog
      ensures Valid()
      ensures isManualClose && reconnectTimer == None && ws == None
      ensures statusLog == old(statusLog) + Notices(statusHandlers, Disconnected)
    {
      isManualClose := true;
      if reconnectTimer.Some? {
        reconnectTimer := None;
      }
      if ws.Some? {
        ws := None;
      }
      NotifyStatus(Disconnected);
    }

    /** send: transmitted only on an open socket, dropped otherwise. */
    method Send(data: Outgoing)
      modifies this`sent
      ensures ws == Some(SocketOpen) ==> sent == old(sent) + [data]
      ensures ws != Some(SocketOpen) ==> sent == old(sent)
    {
      if ws == Some(SocketOpen) {
        sent := sent + [data];
      }
    }

    /** sendHandshake: a handshake carrying the epoch, under send's rule. */
    method SendHandshake(epoch: int)
      modifies this`sent
      ensures sent == old(sent) + (if ws == Some(SocketOpen) then [Handshake(epoch)] else [])
    {
      Send(Handshake(epoch));
    }

    /** requestState: a state request, under send's rule. */
    method RequestState()
      modifies this`sent
      ensures sent == old(sent) + (if ws == Some(SocketOpen) then [StateRequest] else [])
    {
      Send(StateRequest);
    }

    /** onMessage: the handler joins the set (once, however often it is added). */
    method OnMessage(h: HandlerId)
      requires Valid()
      modifies this`messageHandlers
      ensures Valid()
      ensures h in messageHandlers
      ensures messageHandlers == if h in old(messageHandlers) then old(messageHandlers) else old(messageHandlers) + [h]
    {
      if h !in messageHandlers {
        messageHandlers := messageHandlers + [h];
      }
    }

    /** The function onMessage returns: it removes exactly that handler and says
        whether it was there. */
    method UnsubscribeMessage(h: HandlerId) returns (removed: bool)
      requires Valid()
      modifies this`messageHandlers
      ensures Valid()
      ensures removed <==> h in old(messageHandlers)
      ensures forall x :: x in messageHandlers <==> x in old(messageHandlers) && x != h
      ensures IsSubsequence(messageHandlers, old(messageHandlers))
    {
      removed := h in messageHandlers;
      messageHandlers := Without(messageHandlers, h);
    }

    /** onStatus: the handler joins the set (once, however often it is added). */
    method OnStatus(h: HandlerId)
      requires Valid()
      modifies this`statusHandlers
      ensures Valid()
      ensures h in statusHandlers
      ensures statusHandlers == if h in old(statusHandlers) then old(statusHandlers) else old(statusHandlers) + [h]
    {
      if h !in statusHandlers {
        statusHandlers := statusHandlers + [h];
      }
    }

    /** The function onStatus returns: it removes exactly that handler and says
        whether it was there. */
    method UnsubscribeStatus(h: HandlerId) returns (removed: bool)
      requires Valid()
      modifies this`statusHandlers
      ensures Valid()
      ensures removed <==> h in old(statusHandlers)
      ensures forall x :: x in statusHandlers <==> x in old(statusHandlers) && x != h
      ensures IsSubsequence(statusHandlers, old(statusHandlers))
    {
      removed := h in statusHandlers;
      statusHandlers := Without(statusHandlers, h);
    }

    /** The browser changing the current socket's ready state. */
    method SetReadyState(r: ReadyState)
      requires ws.Some?
      modifies this`ws
      ensures ws == Some(r)
    {
      ws := Some(r);
    }

    /** handleOpen: the attempt counter restarts and 'connected' is announced. */
    method HandleOpen()
      requires Valid()
      modifies this`reconnectAttempts, this`statusLog
      ensures Valid()
      ensures reconnectAttempts == 0
      ensures statusLog == old(statusLog) + Notices(statusHandlers, Connected)
    {
      reconnectAttempts := 0;
      NotifyStatus(Connected);
    }

    /** handleMessage: `parsed` is None when the text is not JSON, which is
        swallowed; a heartbeat goes nowhere; any other message is handed to every
        message handler in insertion order, a throwing handler not stopping the rest. */
    method HandleMessage(parsed: Option<Incoming>)
      requires Valid()
      modifies this`deliveries
      ensures Valid()
      ensures deliveries == old(deliveries) +
        (if parsed.Some? && parsed.value.kind != HEARTBEAT then Deliveries(messageHandlers, parsed.value) else [])
    {
      if parsed.None? {
        return;
      }
      var message := parsed.value;
      if message.kind == HEARTBEAT {
        return;
      }
      var i := 0;
      while i < |messageHandlers|
        invariant 0 <= i <= |messageHandlers|
        invariant deliveries == old(deliveries) + Deliveries(messageHandlers[..i], message)
      {
        assert Deliveries(messageHandlers[..i + 1], message) == Deliveries(messageHandlers[..i], message) + [Delivery(messageHandlers[i], message)];
        deliveries := deliveries + [Delivery(messageHandlers[i], message)];
        i := i + 1;
      }
      assert messageHandlers[..i] == messageHandlers;
    }

    /** handleError: 'error' is announced. */
    method HandleError()
      modifies this`statusLog
      ensures statusLog == old(statusLog) + Notices(statusHandlers, Errored)
    {
      NotifyStatus(Errored);
    }

    /** handleClose: 'disconnected' is announced, then a reconnection is tried
        unless the close was manual. */
    method HandleClose()
      requires Valid()
      modifies this`statusLog, this`reconnectAttempts, this`reconnectTimer
      ensures Valid()
      ensures statusLog == old(statusLog) + Notices(statusHandlers, Disconnected)
      ensures isManualClose || old(reconnectAttempts) >= MAX_RECONNECT_ATTEMPTS ==>
        reconnectAttempts == old(reconnectAttempts) && reconnectTimer == old(reconnectTimer)
      ensures !isManualClose && old(reconnectAttempts) < MAX_RECONNECT_ATTEMPTS ==>
        reconnectAttempts == old(reconnectAttempts) + 1 && reconnectTimer == Some(ReconnectDelay(reconnectAttempts))
    {
      NotifyStatus(Disconnected);
      if !isManualClose {
        AttemptReconnect();
      }
    }

    /** getStatus: 'connected' exactly when the socket is open, never 'error'. */
    function GetStatus(): (s: Status)
      reads this`ws
      ensures s == Connected <==> ws == Some(SocketOpen)
      ensures s == Connecting <==> ws == Some(SocketConnecting)
      ensures s != Errored
    {
      match ws
      case None => Disconnected
      case Some(r) =>
        match r
        case SocketConnecting => Connecting
        case SocketOpen => Connected
        case SocketClosing => Disconnected
        case SocketClosed => Disconnected
    }
  }
}
