/**
  The earlier, self-contained dashboard server (server/server.js): a health
  snapshot every 5 s to every OPEN client, with a linear battery estimate, and
  a PING/PONG reply. It keeps no state of its own beyond its clients.
*/
module LegacyServer {
  import opened Wrappers
  import opened JsText
  import SysUtils
  import WsLink

  /**
    The `cpuTemp` field: the thermal-file reading `parseInt(data) / 1000`
    before `toFixed(1)` (`None`: NaN), or a text (`"N/A"`, or the stripped
    `vcgencmd` output).
  */
  datatype TempField = Thermal(celsius: Option<real>) | Text(text: string)

  /** `getCpuTemp`: the thermal zone in millidegrees; a failed read gives `"N/A"`. */
  function GetCpuTemp(thermal: Option<string>): (t: TempField)
    ensures thermal.None? <==> t == Text("N/A")
    ensures thermal.Some? ==> t.Thermal?
  {
    match thermal
    case None => Text("N/A")
    case Some(data) =>
      match ParseInt(data)
      case None => Thermal(None)
      case Some(milli) => Thermal(Some(milli as real / 1000.0))
  }

  /** A well-formed thermal file (`45000` and a newline) reads in degrees (45.0). */
  lemma ThermalReading(milli: int)
    ensures GetCpuTemp(Some(IntText(milli) + "\n")) == Thermal(Some(milli as real / 1000.0))
  {
    ParseIntText(milli, "\n");
  }

  /** The health object; `cpuLoad` is absent (`None`) unless every command ran. */
  datatype Stats = Stats(cpuTemp: TempField, camDetected: bool, throttled: string, cpuLoad: Option<SysUtils.Load>)

  const STABLE := "Stable"
  const LOW_POWER := "Low Power!"

  /** The throttle verdict for the output of `vcgencmd get_throttled`. */
  function ThrottleText(raw: string): (t: string)
    ensures t == STABLE || t == LOW_POWER
    ensures t == STABLE <==> Includes(raw, "0x0")
  {
    if Includes(raw, "0x0") then STABLE else LOW_POWER
  }

  /** `Stable` exactly when `0x0` occurs somewhere in the output. */
  lemma ThrottleIffZero(raw: string)
    ensures ThrottleText(raw) == STABLE <==> exists i :: OccursAt(raw, "0x0", i)
    ensures ThrottleText(raw) == LOW_POWER <==> !exists i :: OccursAt(raw, "0x0", i)
  {
    IncludesIffOccurs(raw, "0x0");
  }

  /**
    What `getSystemStats` returns when the thermal read gave `thermal` and the
    three later sources gave their outputs (`None`: that step threw).
  */
  function Snapshot(thermal: Option<string>, tempOut: Option<string>, throttleOut: Option<string>,
                    loadavg: Option<string>): (s: Stats)
    ensures !s.camDetected
    ensures s.cpuLoad.Some? ==> tempOut.Some? && throttleOut.Some? && loadavg.Some?
    ensures s.throttled != STABLE ==> tempOut.Some? && throttleOut.Some?
    ensures tempOut.None? ==> s.cpuTemp == GetCpuTemp(thermal)
    ensures tempOut.Some? ==> s.cpuTemp.Text?
  {
    var base := Stats(GetCpuTemp(thermal), false, STABLE, None);
    match tempOut
    case None => base
    case Some(temp) =>
      var withTemp := base.(cpuTemp := Text(SysUtils.StripTemp(temp)));
      match throttleOut
      case None => withTemp
      case Some(throttle) =>
        var withThrottle := withTemp.(throttled := ThrottleText(throttle));
        if loadavg.None? then withThrottle else withThrottle.(cpuLoad := SysUtils.GetCpuLoad(loadavg))
  }

  /**
    A failing first command leaves the thermal reading with the default
    verdict; a later failure keeps the temperature (and the verdict) already
    written; the load appears only when everything ran, and never exceeds 100.
  */
  lemma SnapshotPartialFill(thermal: Option<string>, tempOut: Option<string>, throttleOut: Option<string>,
                            loadavg: Option<string>)
    ensures var s := Snapshot(thermal, tempOut, throttleOut, loadavg);
      !s.camDetected
      && (tempOut.None? ==> s == Stats(GetCpuTemp(thermal), false, STABLE, None))
      && (tempOut.Some? ==> s.cpuTemp == Text(SysUtils.StripTemp(tempOut.value)))
      && (tempOut.Some? && throttleOut.None? ==> s.throttled == STABLE && s.cpuLoad.None?)
      && (tempOut.Some? && throttleOut.Some? ==> s.throttled == ThrottleText(throttleOut.value))
      && (s.cpuLoad.Some? <==> tempOut.Some? && throttleOut.Some? && loadavg.Some?)
      && (s.cpuLoad.Some? && s.cpuLoad.value.Percent? ==> s.cpuLoad.value.pct <= 100)
  {
  }

  /** `getSystemStats`: the object is filled one command at a time inside a single `try`. */
  method GetSystemStats(thermal: Option<string>, tempOut: Option<string>, throttleOut: Option<string>,
                        loadavg: Option<string>) returns (stats: Stats)
    ensures stats == Snapshot(thermal, tempOut, throttleOut, loadavg)
  {
    stats := Stats(GetCpuTemp(thermal), false, STABLE, None);
    if tempOut.None? {
      return;
    }
    stats := stats.(cpuTemp := Text(SysUtils.StripTemp(tempOut.value)));
    if throttleOut.None? {
      return;
    }
    stats := stats.(throttled := ThrottleText(throttleOut.value));
    if loadavg.None? {
      return;
    }
    stats := stats.(cpuLoad := SysUtils.GetCpuLoad(loadavg));
  }

  /** The outbound WebSocket frames. */
  datatype Frame = Pong | HealthUpdate(stats: Stats, batteryEst: real, timestamp: string)

  /**
    The 5-second health push: the snapshot with the battery estimate for
    `elapsedMs` since start, to every OPEN client and no other.
  */
  method Tick(elapsedMs: real, thermal: Option<string>, tempOut: Option<string>, throttleOut: Option<string>,
              loadavg: Option<string>, clients: seq<WsLink.Client<Frame>>, localTime: string)
    requires forall i, j :: 0 <= i < j < |clients| ==> clients[i] != clients[j]
    modifies set c | c in clients
    ensures forall i :: 0 <= i < |clients| ==>
      clients[i].readyState == old(clients[i].readyState)
      && clients[i].sent == old(clients[i].sent)
         + WsLink.Delivered(old(clients[i].readyState),
             HealthUpdate(Snapshot(thermal, tempOut, throttleOut, loadavg), SysUtils.GetBattery(elapsedMs), localTime))
  {
    var health := GetSystemStats(thermal, tempOut, throttleOut, loadavg);
    WsLink.Broadcast(clients, HealthUpdate(health, SysUtils.GetBattery(elapsedMs), localTime));
  }

  /** A `PING` gets exactly one `PONG`; nothing else is sent and no state changes. */
  method OnClientMessage(ws: WsLink.Client<Frame>, m: WsLink.Inbound)
    modifies ws`sent
    ensures ws.sent == old(ws.sent) + (if WsLink.IsPing(m) then [Pong] else [])
  {
    if WsLink.IsPing(m) {
      ws.sent := ws.sent + [Pong];
    }
  }
}
