// The hook that ties a live connection to the page's lifetime: on mount (and
// whenever the run id changes) it creates a connection for the run and
// connects it; the effect's cleanup disconnects it and clears the ref.
module Subscription {
  import opened Types
  import EventRouter
  import LiveConnection

  /** A run id the hook acts on: present and non-empty. */
  predicate Subscribes(runId: Option<string>)
  {
    runId.Some? && runId.value != ""
  }

  class RunSubscription {
    /** The process-wide query client the handler writes to. */
    const client: EventRouter.QueryClient
    /** The ref exposing the current connection, if any. */
    var wsRef: Option<LiveConnection.RunWebSocket>

    constructor (client: EventRouter.QueryClient)
      ensures this.client == client && wsRef.None?
    {
      this.client := client;
      wsRef := None;
    }

    /** The effect body: no connection without a run id; otherwise a new,
        connecting one whose messages reach the query client. */
    method Mount(runId: Option<string>) returns (ws: Option<LiveConnection.RunWebSocket>)
      modifies this`wsRef
      ensures !Subscribes(runId) ==> ws.None? && wsRef == old(wsRef)
      ensures Subscribes(runId) ==> ws.Some? && fresh(ws.value) && wsRef == ws && Opened(ws.value, runId.value)
    {
      if !Subscribes(runId) {
        return None;
      }
      var c := new LiveConnection.RunWebSocket(runId.value, client);
      c.Connect();
      wsRef := Some(c);
      ws := Some(c);
    }

    /** A client just created for `runId` and connected: it writes to the
        query client and holds one connecting transport to the run's URL,
        which is its current one, and nothing else. */
    ghost predicate Opened(c: LiveConnection.RunWebSocket, runId: string)
      reads c
    {
      && c.Valid() && c.runId == runId && c.handler == client && !c.closed
      && c.sockets == [LiveConnection.Transport(LiveConnection.SubscriptionUrl(runId), LiveConnection.Connecting)]
      && c.ws == Some(0) && c.timers == map[] && c.pingTimer.None? && c.reconnectTimer.None?
      && c.sent == [] && c.errorsLogged == 0
    }

    /** The effect cleanup: disconnect the connection this effect made and
        clear the ref. */
    method Cleanup(conn: LiveConnection.RunWebSocket)
      requires conn.Valid()
      modifies this`wsRef, conn
      ensures wsRef.None?
      ensures Disconnected(conn)
    {
      conn.Disconnect();
      wsRef := None;
    }

    /** `conn` went through `Disconnect`: closed for good with no timers, its
        current transport (if any) asked to close, every other transport,
        the sent frames and the logged errors as they were. */
    twostate predicate Disconnected(conn: LiveConnection.RunWebSocket)
      reads conn
    {
      && conn.Valid() && conn.closed && conn.ws.None? && conn.timers == map[]
      && conn.pingTimer.None? && conn.reconnectTimer.None?
      && (old(conn.ws).Some? ==>
            old(conn.ws).value < |old(conn.sockets)| &&
            conn.sockets == old(conn.sockets)[old(conn.ws).value :=
              LiveConnection.Transport(old(conn.sockets)[old(conn.ws).value].url,
                                       LiveConnection.CloseRequested(old(conn.sockets)[old(conn.ws).value].state))])
      && (old(conn.ws).None? ==> conn.sockets == old(conn.sockets))
      && conn.nextHandle == old(conn.nextHandle) && conn.sent == old(conn.sent)
      && conn.errorsLogged == old(conn.errorsLogged)
    }

    /** Navigating from one run to another: the old connection is closed for
        good before a new one for the next run, if there is one, is opened. */
    method SwitchRun(current: LiveConnection.RunWebSocket, next: Option<string>)
      returns (ws: Option<LiveConnection.RunWebSocket>)
      requires current.Valid()
      modifies this`wsRef, current
      ensures Disconnected(current)
      ensures !Subscribes(next) ==> ws.None? && wsRef.None?
      ensures Subscribes(next) ==> ws.Some? && fresh(ws.value) && wsRef == ws && Opened(ws.value, next.value)
    {
      Cleanup(current);
      ws := Mount(next);
    }
  }
}
