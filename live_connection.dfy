// The per-run live connection client. It owns one transport at a time, a
// heartbeat interval while that transport is open and a one-shot reconnect
// timeout after it closes, until `Disconnect` closes it for good.
//
// The browser's transports and timers are modelled as state of the client
// object: `sockets` lists every transport the client ever created (by index,
// with its ready state) and `timers` holds the live timers by handle. Events
// (open, message, error, close, a timer firing) are methods the environment
// calls; their preconditions are what the browser guarantees (a transport
// opens only while connecting, closes once; only live timers fire).
module LiveConnection {
  import opened Types
  import EventRouter

  const WsUrl := "ws://localhost:8000"
  const PingIntervalMs: nat := 30000
  const ReconnectDelayMs: nat := 2000

  datatype ReadyState = Connecting | Open | Closing | Closed

  datatype Transport = Transport(url: string, state: ReadyState)

  datatype TimerKind = PingInterval | ReconnectTimeout

  datatype Timer = Timer(kind: TimerKind, delayMs: nat)

  /** What the JSON parser makes of a frame. */
  datatype Parsed = Invalid | Json(msg: WsMessage)

  /** What the client does with an inbound frame. */
  datatype FrameOutcome = Discarded | Delivered(msg: WsMessage) | Logged

  function SubscriptionUrl(runId: string): string
  {
    WsUrl + "/ws/runs/" + runId
  }

  /** The bare keep-alive reply is dropped before parsing; a frame that does
      not parse is logged and dropped; anything else reaches the handler. */
  function ClassifyFrame(frame: string, parse: string -> Parsed): (r: FrameOutcome)
    ensures r == Discarded <==> frame == "pong"
    ensures r == Logged <==> frame != "pong" && parse(frame).Invalid?
    ensures r.Delivered? <==> frame != "pong" && parse(frame).Json?
    ensures r.Delivered? ==> r.msg == parse(frame).msg
  {
    if frame == "pong" then Discarded
    else match parse(frame)
      case Invalid => Logged
      case Json(msg) => Delivered(msg)
  }

  /** `close()` on a transport: a live one starts closing, others stay. */
  function CloseRequested(st: ReadyState): (r: ReadyState)
    ensures st == Connecting || st == Open ==> r == Closing
    ensures st == Closing || st == Closed ==> r == st
  {
    match st
    case Connecting | Open => Closing
    case Closing | Closed => st
  }

  class RunWebSocket {
    const runId: string
    const handler: EventRouter.QueryClient

    // The client's own fields.
    var ws: Option<nat>
    var pingTimer: Option<nat>
    var reconnectTimer: Option<nat>
    var closed: bool

    // The environment it drives.
    var sockets: seq<Transport>
    var timers: map<nat, Timer>
    var nextHandle: nat
    var sent: seq<(nat, string)>
    var errorsLogged: nat

    ghost predicate Valid()
      reads this
    {
      && (ws.Some? ==> ws.value < |sockets|)
      && (forall h :: h in timers ==> h < nextHandle)
      // at most one heartbeat, the one `pingTimer` holds, while the current
      // transport is open or closing
      && (pingTimer.Some? ==> pingTimer.value in timers && timers[pingTimer.value].kind == PingInterval)
      && (forall h :: h in timers && timers[h].kind == PingInterval ==> pingTimer == Some(h))
      && (pingTimer.Some? ==> ws.Some? && sockets[ws.value].state in {Open, Closing})
      // at most one pending reconnect, and only while every transport is closed
      && (forall h :: h in timers && timers[h].kind == ReconnectTimeout ==>
            reconnectTimer == Some(h) && !closed && AllClosed())
      // only the current transport can be live
      && (forall i :: 0 <= i < |sockets| && sockets[i].state != Closed ==> ws == Some(i) || closed)
      && (forall i :: 0 <= i < |sockets| && sockets[i].state in {Connecting, Open} ==> ws == Some(i))
      // closed for good: no transport referenced, no timer left
      && (closed ==> ws.None? && pingTimer.None? && timers == map[])
    }

    ghost predicate AllClosed()
      reads this
    {
      forall i :: 0 <= i < |sockets| ==> sockets[i].state == Closed
    }

    /** Nothing live: every transport closed and no reconnect pending. */
    ghost predicate Quiescent()
      reads this
    {
      AllClosed() && forall h :: h in timers ==> timers[h].kind != ReconnectTimeout
    }

    constructor (runId: string, handler: EventRouter.QueryClient)
      ensures this.runId == runId && this.handler == handler
      ensures Valid() && Quiescent()
      ensures !closed && ws.None? && pingTimer.None? && reconnectTimer.None?
      ensures sockets == [] && timers == map[] && sent == [] && errorsLogged == 0
    {
      this.runId := runId;
      this.handler := handler;
      ws, pingTimer, reconnectTimer, closed := None, None, None, false;
      sockets, timers, nextHandle, sent, errorsLogged := [], map[], 0, [], 0;
    }

    /** Opens a fresh transport for the run, unless closed for good. */
    method Connect()
      requires Valid() && (closed || Quiescent())
      modifies this
      ensures Valid()
      ensures old(closed) ==> sockets == old(sockets) && ws == old(ws)
      ensures !old(closed) ==> sockets == old(sockets) + [Transport(SubscriptionUrl(runId), Connecting)] &&
                               ws == Some(|old(sockets)|)
      ensures closed == old(closed) && timers == old(timers) && nextHandle == old(nextHandle)
      ensures pingTimer == old(pingTimer) && reconnectTimer == old(reconnectTimer)
      ensures sent == old(sent) && errorsLogged == old(errorsLogged)
    {
      if closed {
        return;
      }
      sockets := sockets + [Transport(SubscriptionUrl(runId), Connecting)];
      ws := Some(|sockets| - 1);
    }

    /** Transport `i` opened: start the heartbeat. */
    method OnOpen(i: nat)
      requires Valid() && i < |sockets| && sockets[i].state == Connecting
      modifies this
      ensures Valid()
      ensures sockets == old(sockets)[i := Transport(old(sockets)[i].url, Open)]
      ensures pingTimer == Some(old(nextHandle)) && nextHandle == old(nextHandle) + 1
      ensures timers == old(timers)[old(nextHandle) := Timer(PingInterval, PingIntervalMs)]
      ensures ws == old(ws) && reconnectTimer == old(reconnectTimer) && closed == old(closed)
      ensures sent == old(sent) && errorsLogged == old(errorsLogged)
    {
      sockets := sockets[i := Transport(sockets[i].url, Open)];
      var h := nextHandle;
      nextHandle := nextHandle + 1;
      timers := timers[h := Timer(PingInterval, PingIntervalMs)];
      pingTimer := Some(h);
    }

    /** The heartbeat fired: send "ping" only if the current transport is open. */
    method OnPingTick(h: nat)
      requires Valid() && h in timers && timers[h].kind == PingInterval
      modifies this`sent
      ensures Valid()
      ensures ws.Some? && sockets[ws.value].state == Open ==> sent == old(sent) + [(ws.value, "ping")]
      ensures !(ws.Some? && sockets[ws.value].state == Open) ==> sent == old(sent)
    {
      if ws.Some? && sockets[ws.value].state == Open {
        sent := sent + [(ws.value, "ping")];
      }
    }

    /** An inbound frame; nothing escapes, whatever the frame holds. */
    method OnMessage(frame: string, parse: string -> Parsed)
      requires Valid()
      modifies this`errorsLogged, handler
      ensures Valid()
      ensures ClassifyFrame(frame, parse) == Discarded ==>
                errorsLogged == old(errorsLogged) && handler.state == old(handler.state)
      ensures ClassifyFrame(frame, parse) == Logged ==>
                errorsLogged == old(errorsLogged) + 1 && handler.state == old(handler.state)
      ensures ClassifyFrame(frame, parse).Delivered? ==>
                errorsLogged == old(errorsLogged) &&
                handler.state == EventRouter.Route(old(handler.state), ClassifyFrame(frame, parse).msg)
    {
      match ClassifyFrame(frame, parse) {
        case Discarded =>
        case Logged =>
          errorsLogged := errorsLogged + 1;
        case Delivered(msg) =>
          handler.HandleMessage(msg);
      }
    }

    /** A transport error only asks the current transport to close; the
        close event does the rest. */
    method OnError()
      requires Valid()
      modifies this`sockets
      ensures Valid()
      ensures ws.Some? ==> sockets == old(sockets)[ws.value := Transport(old(sockets)[ws.value].url, CloseRequested(old(sockets)[ws.value].state))]
      ensures ws.None? ==> sockets == old(sockets)
    {
      if ws.Some? {
        var i := ws.value;
        sockets := sockets[i := Transport(sockets[i].url, CloseRequested(sockets[i].state))];
      }
    }

    /** Transport `i` closed: stop the heartbeat, then schedule exactly one
        reconnect unless closed for good. */
    method OnClose(i: nat)
      requires Valid() && i < |sockets| && sockets[i].state != Closed
      modifies this
      ensures Valid()
      ensures sockets == old(sockets)[i := Transport(old(sockets)[i].url, Closed)]
      ensures pingTimer.None?
      ensures var afterPing := if old(pingTimer).Some? then old(timers) - {old(pingTimer).value} else old(timers);
              if old(closed) then timers == afterPing && reconnectTimer == old(reconnectTimer)
              else old(nextHandle) !in afterPing && reconnectTimer == Some(old(nextHandle)) &&
                   timers == afterPing[old(nextHandle) := Timer(ReconnectTimeout, ReconnectDelayMs)]
      ensures ws == old(ws) && closed == old(closed) && sent == old(sent) && errorsLogged == old(errorsLogged)
    {
      sockets := sockets[i := Transport(sockets[i].url, Closed)];
      ClearPing();
      if !closed {
        ScheduleReconnect();
      }
    }

    method ScheduleReconnect()
      requires forall h :: h in timers ==> h < nextHandle
      modifies this`timers, this`nextHandle, this`reconnectTimer
      ensures old(nextHandle) !in old(timers)
      ensures timers == old(timers)[old(nextHandle) := Timer(ReconnectTimeout, ReconnectDelayMs)]
      ensures reconnectTimer == Some(old(nextHandle)) && nextHandle == old(nextHandle) + 1
      ensures forall h :: h in timers ==> h < nextHandle
    {
      var h := nextHandle;
      nextHandle := nextHandle + 1;
      timers := timers[h := Timer(ReconnectTimeout, ReconnectDelayMs)];
      reconnectTimer := Some(h);
    }

    /** Stops the heartbeat if one runs; calling it again does nothing. */
    method ClearPing()
      modifies this`timers, this`pingTimer
      ensures pingTimer.None?
      ensures old(pingTimer).Some? ==> timers == old(timers) - {old(pingTimer).value}
      ensures old(pingTimer).None? ==> timers == old(timers)
    {
      if pingTimer.Some? {
        timers := timers - {pingTimer.value};
        pingTimer := None;
      }
    }

    /** The reconnect timeout fired: connect again (which re-checks `closed`). */
    method OnReconnectTimer(h: nat)
      requires Valid() && h in timers && timers[h].kind == ReconnectTimeout
      modifies this
      ensures Valid()
      ensures timers == old(timers) - {h}
      ensures sockets == old(sockets) + [Transport(SubscriptionUrl(runId), Connecting)]
      ensures ws == Some(|old(sockets)|) && !closed
    {
      timers := timers - {h};
      Connect();
    }

    /** Every pending timer is the heartbeat or the reconnect timeout. */
    lemma OnlyTheTwoTimers()
      requires Valid()
      ensures forall h :: h in timers ==> pingTimer == Some(h) || reconnectTimer == Some(h)
    {
    }

    /** Closes for good: set the flag first, clear both timers, close and drop
        the transport. A second call changes nothing. */
    method Disconnect()
      requires Valid()
      modifies this
      ensures Valid()
      ensures closed && ws.None? && pingTimer.None? && reconnectTimer.None? && timers == map[]
      ensures old(ws).Some? ==>
                sockets == old(sockets)[old(ws).value := Transport(old(sockets)[old(ws).value].url,
                                                                   CloseRequested(old(sockets)[old(ws).value].state))]
      ensures old(ws).None? ==> sockets == old(sockets)
      ensures nextHandle == old(nextHandle) && sent == old(sent) && errorsLogged == old(errorsLogged)
    {
      OnlyTheTwoTimers();
      closed := true;
      ClearPing();
      if reconnectTimer.Some? {
        timers := timers - {reconnectTimer.value};
        reconnectTimer := None;
      }
      assert timers == map[];
      if ws.Some? {
        var i := ws.value;
        sockets := sockets[i := Transport(sockets[i].url, CloseRequested(sockets[i].state))];
        ws := None;
      }
    }
  }

  /** After `Disconnect`, a `connect()` opens nothing, whether it comes
      before or after the late close event of the dropped transport, and
      that close event schedules no reconnect: the closed flag is never
      cleared. */
  method DisconnectIsFinal(c: RunWebSocket)
    requires c.Valid() && c.ws.Some?
    modifies c
    ensures c.Valid() && c.closed && c.ws.None? && c.timers == map[]
    ensures |c.sockets| == |old(c.sockets)| && c.AllClosed()
  {
    var i := c.ws.value;
    c.Disconnect();
    c.Connect();
    if c.sockets[i].state != Closed {
      c.OnClose(i);
    }
    c.Connect();
  }
}
