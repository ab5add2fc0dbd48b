/**
  The dashboard's main view (dashboard/src/App.jsx): the camera pan angle
  changed by the drive buttons, the drive/stop requests to the rover, and the
  ping round-trip latency. Requests are recorded, not sent; each state update
  is applied at once.
*/
module App {
  import opened Wrappers
  import WsLink

  const PAN_STEP := 5
  const MAX_PAN := 90
  const CONTROL_URL := "http://rover.tail9d0237.ts.net:3000/api/control/"

  /** `setPan` in `drive(dir)`: left and right step by 5 degrees, clamped to [-90, 90]. */
  function NextPan(pan: int, dir: string): (p: int)
    ensures -MAX_PAN <= pan <= MAX_PAN ==> -MAX_PAN <= p <= MAX_PAN
    ensures pan % PAN_STEP == 0 ==> p % PAN_STEP == 0
    ensures dir == "left" && -MAX_PAN <= pan ==> p <= pan && (p == pan <==> pan == -MAX_PAN)
    ensures dir == "right" && pan <= MAX_PAN ==> p >= pan && (p == pan <==> pan == MAX_PAN)
    ensures dir != "left" && dir != "right" ==> p == pan
    ensures dir == "left" ==> p >= pan - PAN_STEP && p >= -MAX_PAN && (p == pan - PAN_STEP || p == -MAX_PAN)
    ensures dir == "right" ==> p <= pan + PAN_STEP && p <= MAX_PAN && (p == pan + PAN_STEP || p == MAX_PAN)
  {
    if dir == "left" then (if pan - PAN_STEP > -MAX_PAN then pan - PAN_STEP else -MAX_PAN)
    else if dir == "right" then (if pan + PAN_STEP < MAX_PAN then pan + PAN_STEP else MAX_PAN)
    else pan
  }

  /** The pan angle after a run of `drive` calls from the initial 0. */
  function PanAfter(dirs: seq<string>): int
    decreases |dirs|
  {
    if |dirs| == 0 then 0 else NextPan(PanAfter(dirs[..|dirs| - 1]), dirs[|dirs| - 1])
  }

  /** Whatever the buttons pressed, the pan stays in [-90, 90] on the 5-degree grid. */
  lemma {:induction false} PanReachable(dirs: seq<string>)
    ensures -MAX_PAN <= PanAfter(dirs) <= MAX_PAN
    ensures PanAfter(dirs) % PAN_STEP == 0
    decreases |dirs|
  {
    if |dirs| > 0 {
      PanReachable(dirs[..|dirs| - 1]);
    }
  }

  /** Only left and right move the camera: a run with neither leaves it centred. */
  lemma {:induction false} PanOnlyFromTurns(dirs: seq<string>)
    requires forall k :: 0 <= k < |dirs| ==> dirs[k] != "left" && dirs[k] != "right"
    ensures PanAfter(dirs) == 0
    decreases |dirs|
  {
    if |dirs| > 0 {
      PanOnlyFromTurns(dirs[..|dirs| - 1]);
    }
  }

  class Dashboard {
    var pan: int
    var latency: int
    /** `pingStart.current`: when the last PING went out. */
    var pingStart: int
    /** URLs POSTed to the rover, oldest first. */
    var requests: seq<string>
    /** Frames sent on the WebSocket, oldest first. */
    var sent: seq<string>

    predicate Valid()
      reads this
    {
      -MAX_PAN <= pan <= MAX_PAN && pan % PAN_STEP == 0
    }

    constructor ()
      ensures Valid() && pan == 0 && latency == 0 && pingStart == 0
      ensures requests == [] && sent == []
    {
      pan, latency, pingStart := 0, 0, 0;
      requests, sent := [], [];
    }

    /** `drive(dir)`: the request goes out for every direction; only left/right pan. */
    method Drive(dir: string)
      requires Valid()
      modifies this`pan, this`requests
      ensures Valid()
      ensures pan == NextPan(old(pan), dir)
      ensures requests == old(requests) + [CONTROL_URL + dir]
    {
      requests := requests + [CONTROL_URL + dir];
      pan := NextPan(pan, dir);
    }

    /** `stop()`: a request and nothing else. */
    method Stop()
      modifies this`requests
      ensures requests == old(requests) + [CONTROL_URL + "stop"]
    {
      requests := requests + [CONTROL_URL + "stop"];
    }

    /** The 3-second ping: the send time overwrites the previous one. */
    method SendPing(now: int)
      modifies this`pingStart, this`sent
      ensures pingStart == now
      ensures sent == old(sent) + ["{\"type\":\"PING\"}"]
    {
      pingStart := now;
      sent := sent + ["{\"type\":\"PING\"}"];
    }

    /**
      `socket.onmessage`: a PONG sets the latency to the time since the most
      recent ping; other frames change nothing (a malformed one throws in the
      handler, also changing nothing).
    */
    method OnMessage(m: WsLink.Inbound, now: int)
      modifies this`latency
      ensures m == WsLink.Parsed(Some("PONG")) ==> latency == now - pingStart
      ensures m != WsLink.Parsed(Some("PONG")) ==> latency == old(latency)
    {
      if m == WsLink.Parsed(Some("PONG")) {
        latency := now - pingStart;
      }
    }
  }
}
