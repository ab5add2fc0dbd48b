/**
  The browser side of both servers' WebSocket endpoints (server/src/server.js and
  server/server.js): a connected client with its ready state and the frames sent
  to it, the parse of an inbound frame, and the health broadcast that skips every
  client whose socket is not OPEN. The transport itself is not modelled.
*/
module WsLink {
  import opened Wrappers

  /** The `readyState` of a `ws` socket. */
  datatype ReadyState = Connecting | Open | Closing | Closed

  /**
    An inbound frame after `JSON.parse`: `Malformed` when parsing threw, else
    the value of its `type` property when that is a string (`None` otherwise).
  */
  datatype Inbound = Malformed | Parsed(msgType: Option<string>)

  const PING_TYPE := "PING"

  /** `data.type === "PING"`; a malformed frame never is one. */
  predicate IsPing(m: Inbound) {
    m.Parsed? && m.msgType == Some(PING_TYPE)
  }

  /** One connected browser; `F` is the server's outbound frame type. */
  class Client<F> {
    var readyState: ReadyState
    /** Frames handed to `ws.send`, oldest first. */
    var sent: seq<F>

    constructor (state: ReadyState)
      ensures readyState == state && sent == []
    {
      readyState, sent := state, [];
    }
  }

  /** What one broadcast adds to a client that was in `state`. */
  function Delivered<F>(state: ReadyState, frame: F): (d: seq<F>)
    ensures |d| <= 1
    ensures d == [frame] <==> state == Open
  {
    if state == Open then [frame] else []
  }

  /**
    `wss.clients.forEach(c => { if (c.readyState === OPEN) c.send(frame) })`:
    every OPEN client receives the frame exactly once, every other client
    nothing, and no ready state changes. `wss.clients` is a `Set`, so the
    clients are distinct.
  */
  method Broadcast<F>(clients: seq<Client<F>>, frame: F)
    requires forall i, j :: 0 <= i < j < |clients| ==> clients[i] != clients[j]
    modifies set c | c in clients
    ensures forall i :: 0 <= i < |clients| ==> clients[i].readyState == old(clients[i].readyState)
    ensures forall i :: 0 <= i < |clients| ==>
      clients[i].sent == old(clients[i].sent) + Delivered(old(clients[i].readyState), frame)
  {
    for i := 0 to |clients|
      invariant forall j :: 0 <= j < |clients| ==> clients[j].readyState == old(clients[j].readyState)
      invariant forall j :: 0 <= j < i ==>
        clients[j].sent == old(clients[j].sent) + Delivered(old(clients[j].readyState), frame)
      invariant forall j :: i <= j < |clients| ==> clients[j].sent == old(clients[j].sent)
    {
      if clients[i].readyState == Open {
        clients[i].sent := clients[i].sent + [frame];
      }
    }
  }
}
