/**
  The process-wide state of the rover server (server/src/server.js): the voltage
  window and battery estimate, the liveness monitor with its idle-shutdown latch,
  the health snapshot broadcast every tick, the PING handler and the host power
  endpoints. Timers become `Tick(now)` calls, subprocess output and file writes
  become parameters, and the host marker files and `process.exit` become
  `HostEvent`s.
*/
module RoverServer {
  import opened Wrappers
  import SysUtils
  import Mqtt
  import WsLink
  import CameraApi

  const HISTORY_SIZE: nat := 20
  const GRACE_PERIOD_MS := 2 * 60 * 1000
  const IDLE_TIMEOUT_MS := 5 * 60 * 1000
  /** A gap between ticks longer than this is taken for an NTP clock jump. */
  const CLOCK_JUMP_MS := 15000

  const CLOCK_JUMP_TEXT := "[PI] Clock jump detected (NTP sync). Resetting timers..."

  // ---------------------------------------------------------------- voltage

  /**
    A line from the voltage monitor after `JSON.parse`: `Unparsable` when that
    threw, else its `type`, `value` and `distance` (`None`: absent or null).
  */
  datatype VoltageLine =
    | Unparsable
    | Reading(msgType: Option<string>, value: Option<real>, distance: Option<real>)

  /** `data.type === "voltage" && data.value`: a zero reading is falsy and ignored too. */
  predicate Accepted(line: VoltageLine) {
    line.Reading? && line.msgType == Some("voltage") && line.value.Some? && line.value.value != 0.0
  }

  /** The last `n` elements of `s` (all of them if there are fewer). */
  function LastN<T>(s: seq<T>, n: nat): (w: seq<T>)
    ensures |w| == if |s| < n then |s| else n
    ensures w == s[|s| - |w|..]
  {
    if |s| <= n then s else s[|s| - n..]
  }

  /** Push-then-shift on the window is the window of the longer sequence. */
  lemma LastNPush<T>(s: seq<T>, x: T, n: nat)
    requires n > 0
    ensures var h := LastN(s, n) + [x];
      LastN(s + [x], n) == if |h| > n then h[1..] else h
  {
    if |s| >= n {
      assert (s[|s| - n..] + [x])[1..] == (s + [x])[|s| + 1 - n..];
    }
  }

  /** `reduce((a, b) => a + b, 0)`, a left fold. */
  function Sum(s: seq<real>): real
    decreases |s|
  {
    if |s| == 0 then 0.0 else Sum(s[..|s| - 1]) + s[|s| - 1]
  }

  function Mean(s: seq<real>): real
    requires |s| > 0
  {
    Sum(s) / |s| as real
  }

  lemma {:induction false} SumAtLeast(s: seq<real>, lo: real)
    requires forall k :: 0 <= k < |s| ==> lo <= s[k]
    ensures |s| as real * lo <= Sum(s)
    decreases |s|
  {
    if |s| > 0 {
      var init := s[..|s| - 1];
      assert forall k :: 0 <= k < |init| ==> init[k] == s[k];
      SumAtLeast(init, lo);
    }
  }

  lemma {:induction false} SumAtMost(s: seq<real>, hi: real)
    requires forall k :: 0 <= k < |s| ==> s[k] <= hi
    ensures Sum(s) <= |s| as real * hi
    decreases |s|
  {
    if |s| > 0 {
      var init := s[..|s| - 1];
      assert forall k :: 0 <= k < |init| ==> init[k] == s[k];
      SumAtMost(init, hi);
    }
  }

  /** The mean is at least the smallest reading and at most the largest. */
  lemma MeanBounds(s: seq<real>, lo: real, hi: real)
    requires |s| > 0
    ensures (forall k :: 0 <= k < |s| ==> lo <= s[k]) ==> lo <= Mean(s)
    ensures (forall k :: 0 <= k < |s| ==> s[k] <= hi) ==> Mean(s) <= hi
  {
    var n := |s| as real;
    assert Mean(s) * n == Sum(s);
    if forall k :: 0 <= k < |s| ==> lo <= s[k] {
      SumAtLeast(s, lo);
    }
    if forall k :: 0 <= k < |s| ==> s[k] <= hi {
      SumAtMost(s, hi);
    }
  }

  /**
    `calculatePercentage`: the linear 3S LiPo curve from 9.0 V (empty) to
    12.6 V (full), clamped to [0, 100].
  */
  function CalculatePercentage(v: real): (pct: real)
    ensures 0.0 <= pct <= 100.0
    ensures v <= 9.0 ==> pct == 0.0
    ensures v >= 12.6 ==> pct == 100.0
  {
    var raw := (v - 9.0) / (12.6 - 9.0) * 100.0;
    if raw < 0.0 then 0.0 else if raw > 100.0 then 100.0 else raw
  }

  /** A higher average voltage never shows a lower charge. */
  lemma PercentageMonotone(v1: real, v2: real)
    requires v1 <= v2
    ensures CalculatePercentage(v1) <= CalculatePercentage(v2)
  {
  }

  /**
    Inside [9.0, 12.6] the curve is linear: every 0.036 V is one percentage
    point, so 10.8 V reads half full.
  */
  lemma PercentageOnCurve(v1: real, v2: real)
    requires 9.0 <= v1 <= v2 <= 12.6
    ensures CalculatePercentage(v2) - CalculatePercentage(v1) == (v2 - v1) * 100.0 / 3.6
    ensures CalculatePercentage(10.8) == 50.0
  {
  }

  /**
    The battery figure follows the window mean, not the latest reading: a full
    window reads full, an empty one empty, and a fresh 12.0 V reading after an
    11.0 V one shows the mean of the two.
  */
  lemma PercentageFollowsWindow(w: seq<real>)
    requires |w| > 0
    ensures (forall k :: 0 <= k < |w| ==> w[k] >= 12.6) ==> CalculatePercentage(Mean(w)) == 100.0
    ensures (forall k :: 0 <= k < |w| ==> 0.0 <= w[k] <= 9.0) ==> CalculatePercentage(Mean(w)) == 0.0
    ensures CalculatePercentage(Mean([11.0, 12.0])) == CalculatePercentage(11.5) < CalculatePercentage(12.0)
  {
    MeanBounds(w, 12.6, 9.0);
    if forall k :: 0 <= k < |w| ==> 0.0 <= w[k] <= 9.0 {
      assert forall k :: 0 <= k < |w| ==> w[k] <= 9.0;
    }
    assert Sum([11.0, 12.0]) == 23.0 by {
      assert [11.0, 12.0][..1] == [11.0];
      assert [11.0][..0] == [];
    }
  }

  // ---------------------------------------------------------------- monitor

  /** The fields the per-second tick reads and writes. */
  datatype Monitor = Monitor(startupTime: int, lastPing: int, lastCheck: int, shuttingDown: bool)

  /** First half of a tick: a clock jump counts as a ping, and the tick time is recorded. */
  function ClockChecked(m: Monitor, now: int): (c: Monitor)
    ensures c.lastCheck == now && c.startupTime == m.startupTime && c.shuttingDown == m.shuttingDown
    ensures now - m.lastCheck > CLOCK_JUMP_MS ==> c.lastPing == now
    ensures now - m.lastCheck <= CLOCK_JUMP_MS ==> c.lastPing == m.lastPing
  {
    var ping := if now - m.lastCheck > CLOCK_JUMP_MS then now else m.lastPing;
    m.(lastPing := ping, lastCheck := now)
  }

  /** Past the grace period, idle for longer than the timeout, and not already shutting down. */
  predicate ShutdownDue(c: Monitor, now: int) {
    now - c.startupTime > GRACE_PERIOD_MS && now - c.lastPing > IDLE_TIMEOUT_MS && !c.shuttingDown
  }

  /** Whether the tick at `now` calls the idle-shutdown handler. */
  predicate FiresAt(m: Monitor, now: int): (fires: bool)
    ensures fires ==> now - m.lastCheck <= CLOCK_JUMP_MS && !m.shuttingDown
  {
    ShutdownDue(ClockChecked(m, now), now)
  }

  /**
    A whole tick. The handler sets the latch and clears it again when its
    action throws, so after a firing tick the latch says whether the action
    completed.
  */
  function TickStep(m: Monitor, now: int, actionCompletes: bool): (r: Monitor)
    ensures r.lastCheck == now && r.startupTime == m.startupTime
    ensures r.lastPing == ClockChecked(m, now).lastPing
    ensures FiresAt(m, now) ==> r.shuttingDown == actionCompletes
    ensures !FiresAt(m, now) ==> r.shuttingDown == m.shuttingDown
  {
    var c := ClockChecked(m, now);
    if ShutdownDue(c, now) then c.(shuttingDown := actionCompletes) else c
  }

  datatype Event = Tick(now: int) | Ping(now: int)

  function Step(m: Monitor, e: Event, actionCompletes: bool): Monitor {
    match e
    case Tick(now) => TickStep(m, now, actionCompletes)
    case Ping(now) => m.(lastPing := now)
  }

  /** How many ticks of `events` call the idle-shutdown handler. */
  function Firings(m: Monitor, events: seq<Event>, actionCompletes: bool): nat
    decreases |events|
  {
    if |events| == 0 then 0
    else
      (if events[0].Tick? && FiresAt(m, events[0].now) then 1 else 0)
      + Firings(Step(m, events[0], actionCompletes), events[1..], actionCompletes)
  }

  /**
    A tick fires exactly when no clock jump happened, the grace period is over,
    the last ping is more than five minutes old, and the latch is clear.
    In particular a clock-jump tick never fires.
  */
  lemma FiresAtExactly(m: Monitor, now: int)
    ensures FiresAt(m, now) <==>
      now - m.lastCheck <= CLOCK_JUMP_MS && now - m.startupTime > GRACE_PERIOD_MS
      && now - m.lastPing > IDLE_TIMEOUT_MS && !m.shuttingDown
  {
  }

  /** A ping postpones the shutdown by the full idle timeout. */
  lemma PingPostpones(m: Monitor, p: int, now: int)
    requires now - p <= IDLE_TIMEOUT_MS
    ensures !FiresAt(Step(m, Ping(p), true), now)
  {
  }

  /** Nothing fires within the grace period, whatever the pings and clock jumps. */
  lemma {:induction false} NoFiringWithinGrace(m: Monitor, events: seq<Event>, actionCompletes: bool)
    requires forall k :: 0 <= k < |events| ==> events[k].now - m.startupTime <= GRACE_PERIOD_MS
    ensures Firings(m, events, actionCompletes) == 0
    decreases |events|
  {
    if |events| > 0 {
      var next := Step(m, events[0], actionCompletes);
      assert next.startupTime == m.startupTime;
      assert forall k :: 0 <= k < |events| - 1 ==> events[1..][k] == events[k + 1];
      NoFiringWithinGrace(next, events[1..], actionCompletes);
    }
  }

  /** While the latch is set nothing fires, and the latch stays set. */
  lemma {:induction false} LatchedNeverFires(m: Monitor, events: seq<Event>, actionCompletes: bool)
    requires m.shuttingDown
    ensures Firings(m, events, actionCompletes) == 0
    decreases |events|
  {
    if |events| > 0 {
      var next := Step(m, events[0], actionCompletes);
      assert next.shuttingDown;
      LatchedNeverFires(next, events[1..], actionCompletes);
    }
  }

  /** When the shutdown action completes, the handler runs at most once over any run. */
  lemma {:induction false} CompletedShutdownFiresOnce(m: Monitor, events: seq<Event>)
    ensures Firings(m, events, true) <= 1
    ensures m.shuttingDown ==> Firings(m, events, true) == 0
    decreases |events|
  {
    if m.shuttingDown {
      LatchedNeverFires(m, events, true);
    } else if |events| > 0 {
      var next := Step(m, events[0], true);
      if events[0].Tick? && FiresAt(m, events[0].now) {
        LatchedNeverFires(next, events[1..], true);
      } else {
        CompletedShutdownFiresOnce(next, events[1..]);
      }
    }
  }

  /** `n` ticks one second apart from `t`, with no ping in between. */
  function IdleTicks(t: int, n: nat): seq<Event>
    decreases n
  {
    if n == 0 then [] else [Tick(t)] + IdleTicks(t + 1000, n - 1)
  }

  /**
    When the shutdown action throws, the latch is clear again after every
    firing tick, so once the rover is idle every further tick fires.
  */
  lemma {:induction false} FailedShutdownRefires(m: Monitor, t: int, n: nat)
    requires !m.shuttingDown && t - m.lastCheck <= CLOCK_JUMP_MS
    requires t - m.startupTime > GRACE_PERIOD_MS && t - m.lastPing > IDLE_TIMEOUT_MS
    ensures Firings(m, IdleTicks(t, n), false) == n
    decreases n
  {
    if n > 0 {
      var events := IdleTicks(t, n);
      assert events[0] == Tick(t) && events[1..] == IdleTicks(t + 1000, n - 1);
      assert FiresAt(m, t);
      var next := TickStep(m, t, false);
      assert next == m.(lastCheck := t);
      FailedShutdownRefires(next, t + 1000, n - 1);
    }
  }

  // ---------------------------------------------------------------- snapshot

  /**
    The health object. Fields the snapshot did not reach are `None`: they are
    absent from the JSON sent to the dashboard.
  */
  datatype Stats = Stats(
    cpuTemp: string,
    camDetected: bool,
    throttled: string,
    cpuLoad: Option<SysUtils.Load>,
    battery: Option<real>,
    voltage: Option<real>,
    distance: Option<real>,
    wifiSignal: Option<real>,
    usbPower: Option<string>)

  function UsbText(on: bool): string {
    if on then "on" else "off"
  }

  /**
    The snapshot `getSystemStats` returns: the temperature always; the load
    and the cached battery, voltage and distance only when `/proc/loadavg`
    was read; the Wi-Fi level and USB state only when the Wi-Fi reading
    succeeded too. `temp` is the output of the second temperature command.
  */
  function Snapshot(temp: Option<string>, loadavg: Option<string>, battery: real, voltage: real,
                    distance: real, wifi: Option<real>, usbOn: bool): (s: Stats)
    ensures !s.camDetected && s.throttled == "Stable"
    ensures s.battery.Some? || s.voltage.Some? || s.distance.Some? || s.wifiSignal.Some? ==> s.cpuLoad.Some?
    ensures s.usbPower.Some? ==> s.wifiSignal.Some?
    ensures s.cpuLoad.None? <==> loadavg.None?
  {
    var load := SysUtils.GetCpuLoad(loadavg);
    var loaded := load.Some?;
    Stats(SysUtils.GetCpuTemp(temp), false, "Stable", load,
          if loaded then Some(battery) else None,
          if loaded then Some(voltage) else None,
          if loaded then Some(distance) else None,
          if loaded then wifi else None,
          if loaded && wifi.Some? then Some(UsbText(usbOn)) else None)
  }

  /** One failing source drops every later field: the sources are not isolated. */
  lemma SnapshotPartialFill(temp: Option<string>, loadavg: Option<string>, battery: real, voltage: real,
                            distance: real, wifi: Option<real>, usbOn: bool)
    ensures var s := Snapshot(temp, loadavg, battery, voltage, distance, wifi, usbOn);
      s.cpuTemp == SysUtils.GetCpuTemp(temp) && !s.camDetected && s.throttled == "Stable"
      && (loadavg.None? ==>
            s.cpuLoad.None? && s.battery.None? && s.voltage.None? && s.distance.None?
            && s.wifiSignal.None? && s.usbPower.None?)
      && (loadavg.Some? ==>
            s.cpuLoad.Some? && s.battery == Some(battery) && s.voltage == Some(voltage)
            && s.distance == Some(distance) && s.wifiSignal == wifi)
      && (s.usbPower.Some? <==> loadavg.Some? && wifi.Some?)
      && (s.cpuLoad.Some? && s.cpuLoad.value.Percent? ==> s.cpuLoad.value.pct <= 100)
  {
  }

  // ---------------------------------------------------------------- server

  /** The outbound WebSocket frames. */
  datatype Frame = Pong | HealthUpdate(stats: Stats, timestamp: string)

  /** Writes to the shared host volume and the scheduled process exit. */
  datatype HostEvent = ShutdownRequested(note: string) | RebootRequested | ExitScheduled

  /** What a completed idle shutdown leaves for the host: the marker file, then the exit in 3 s. */
  function IdleMarkerEvents(iso: string): seq<HostEvent> {
    [ShutdownRequested("Idle shutdown at " + iso), ExitScheduled]
  }

  /** The stats object the idle shutdown should report. */
  function IdleStatsAt(c: Monitor, now: int): Mqtt.IdleStats {
    Mqtt.IdleStats(Some(c.lastPing), Some(now - c.startupTime))
  }

  /** The clock-jump log line, if this tick saw a jump. */
  function JumpMessages(m: Monitor, now: int, iso: string): seq<Mqtt.Message> {
    if now - m.lastCheck > CLOCK_JUMP_MS
    then [Mqtt.Message(Mqtt.LOGS_TOPIC, Mqtt.LogLine(iso, CLOCK_JUMP_TEXT), Mqtt.DEFAULT_QOS)]
    else []
  }

  /**
    What the idle check hands to a connected client as written: the handler
    passes no stats object, so only the first log line goes out.
  */
  function IdleMessages(c: Monitor, now: int, iso: string): seq<Mqtt.Message> {
    if ShutdownDue(c, now) then Mqtt.IdleShutdownBurst(None, iso, iso) else []
  }

  /** The idle-shutdown burst with the handler corrected, if it is due after the clock check `c`. */
  function IdleMessagesCorrected(c: Monitor, now: int, iso: string): seq<Mqtt.Message> {
    if ShutdownDue(c, now) then Mqtt.IdleShutdownBurst(Some(IdleStatsAt(c, now)), iso, iso) else []
  }

  /** What one tick hands to a connected broker client. */
  function TickMessages(m: Monitor, now: int, iso: string): seq<Mqtt.Message> {
    JumpMessages(m, now, iso) + IdleMessages(ClockChecked(m, now), now, iso)
  }

  /** What one tick hands to a connected broker client, with the shutdown handler corrected. */
  function TickMessagesCorrected(m: Monitor, now: int, iso: string): seq<Mqtt.Message> {
    JumpMessages(m, now, iso) + IdleMessagesCorrected(ClockChecked(m, now), now, iso)
  }

  /**
    As written, no tick ever sends the power-off commands: a firing tick adds
    just the "IDLE SHUTDOWN TRIGGERED" log line.
  */
  lemma TickNeverPowersOff(m: Monitor, now: int, iso: string)
    ensures Mqtt.PI_POWER_TOPIC !in Mqtt.Topics(TickMessages(m, now, iso))
    ensures Mqtt.AUX_POWER_TOPIC !in Mqtt.Topics(TickMessages(m, now, iso))
    ensures |TickMessages(m, now, iso)| == |JumpMessages(m, now, iso)| + (if FiresAt(m, now) then 1 else 0)
  {
    var c := ClockChecked(m, now);
    Mqtt.TopicsAppend(JumpMessages(m, now, iso), IdleMessages(c, now, iso));
    Mqtt.IdleShutdownBurstOrder(None, iso, iso);
    assert Mqtt.Topics(IdleMessages(c, now, iso)) == if ShutdownDue(c, now) then [Mqtt.LOGS_TOPIC] else [];
  }

  /** With the handler corrected, a tick sends the power-off commands exactly when it fires. */
  lemma TickPowersOffIffFires(m: Monitor, now: int, iso: string)
    ensures Mqtt.PI_POWER_TOPIC in Mqtt.Topics(TickMessagesCorrected(m, now, iso)) <==> FiresAt(m, now)
  {
    var c := ClockChecked(m, now);
    Mqtt.TopicsAppend(JumpMessages(m, now, iso), IdleMessagesCorrected(c, now, iso));
    assert Mqtt.PI_POWER_TOPIC !in Mqtt.Topics(JumpMessages(m, now, iso));
    if ShutdownDue(c, now) {
      Mqtt.IdleShutdownBurstOrder(Some(IdleStatsAt(c, now)), iso, iso);
    }
  }

  class ServerState {
    /** The last `HISTORY_SIZE` accepted readings, oldest first. */
    var history: seq<real>
    /** Every accepted reading so far. */
    ghost var accepted: seq<real>
    var currentVoltage: real
    var currentBatteryPct: real
    var distance: real
    var lastPingTimestamp: int
    var lastCheckTime: int
    const startupTime: int
    var isShuttingDown: bool
    var usbPowerState: bool
    const mqtt: Mqtt.MqttService
    var hostEvents: seq<HostEvent>

    ghost predicate Valid()
      reads this
    {
      history == LastN(accepted, HISTORY_SIZE)
    }

    function MonitorState(): Monitor
      reads this
    {
      Monitor(startupTime, lastPingTimestamp, lastCheckTime, isShuttingDown)
    }

    /** Module start-up at time `now`; it also asks the broker service to connect. */
    constructor (now: int, svc: Mqtt.MqttService)
      modifies svc
      ensures Valid() && accepted == [] && history == []
      ensures currentVoltage == 0.0 && currentBatteryPct == 0.0 && distance == 0.0
      ensures MonitorState() == Monitor(now, now, now, false)
      ensures usbPowerState && hostEvents == []
      ensures mqtt == svc && svc.hasClient && svc.outbox == old(svc.outbox)
      ensures svc.isConnected == old(svc.isConnected)
    {
      history, accepted := [], [];
      currentVoltage, currentBatteryPct, distance := 0.0, 0.0, 0.0;
      lastPingTimestamp, lastCheckTime, startupTime := now, now, now;
      isShuttingDown, usbPowerState := false, true;
      mqtt := svc;
      hostEvents := [];
      new;
      svc.Connect();
    }

    /**
      The voltage monitor's message handler: an accepted reading is pushed on
      the window (dropping the oldest beyond 20), becomes the current voltage,
      and the battery figure is recomputed from the window mean. Anything
      else changes nothing.
    */
    method OnVoltageLine(line: VoltageLine)
      requires Valid()
      modifies this`history, this`accepted, this`currentVoltage, this`currentBatteryPct, this`distance
      ensures Valid()
      ensures !Accepted(line) ==> unchanged(this)
      ensures Accepted(line) ==>
        accepted == old(accepted) + [line.value.value]
        && currentVoltage == line.value.value
        && |history| > 0
        && currentBatteryPct == CalculatePercentage(Mean(history))
        && distance == line.distance.GetOr(0.0)
    {
      if !Accepted(line) {
        return;
      }
      var v := line.value.value;
      LastNPush(accepted, v, HISTORY_SIZE);
      history := history + [v];
      accepted := accepted + [v];
      currentVoltage := v;
      if |history| > HISTORY_SIZE {
        history := history[1..];
      }
      currentBatteryPct := CalculatePercentage(Mean(history));
      distance := line.distance.GetOr(0.0);
    }

    /**
      `getSystemStats`: the temperature command runs twice and only the second
      output is kept; then load, cached values, Wi-Fi and USB state are
      filled one by one until the first source that fails.
    */
    method GetSystemStats(temp1: Option<string>, temp2: Option<string>, loadavg: Option<string>,
                          wifi: Option<real>) returns (stats: Stats)
      ensures stats == Snapshot(temp2, loadavg, currentBatteryPct, currentVoltage, distance, wifi, usbPowerState)
    {
      stats := Stats(SysUtils.GetCpuTemp(temp1), false, "Stable", None, None, None, None, None, None);
      stats := stats.(cpuTemp := SysUtils.GetCpuTemp(temp2));
      var load := SysUtils.GetCpuLoad(loadavg);
      if load.None? {
        return;
      }
      stats := stats.(cpuLoad := load);
      stats := stats.(battery := Some(currentBatteryPct));
      stats := stats.(voltage := Some(currentVoltage));
      stats := stats.(distance := Some(distance));
      if wifi.None? {
        return;
      }
      stats := stats.(wifiSignal := wifi);
      stats := stats.(usbPower := Some(UsbText(usbPowerState)));
    }

    /**
      The body of `handleIdleShutdown`'s `try`: the broker sequence, then the
      marker file and the exit timer. `failed` says that it threw.
    */
    method ShutdownSequence(stats: Option<Mqtt.IdleStats>, iso: string, markerWritten: bool) returns (failed: bool)
      modifies this`hostEvents, mqtt`outbox
      ensures failed <==> stats.None? || !markerWritten
      ensures mqtt.outbox == old(mqtt.outbox) + (if mqtt.isConnected then Mqtt.IdleShutdownBurst(stats, iso, iso) else [])
      ensures hostEvents == old(hostEvents) + (if failed then [] else IdleMarkerEvents(iso))
    {
      var thrown := mqtt.TriggerIdleShutdown(stats, iso, iso);
      if thrown || !markerWritten {
        return true;
      }
      hostEvents := hostEvents + IdleMarkerEvents(iso);
      return false;
    }

    /**
      `handleIdleShutdown` as written: it calls `triggerIdleShutdown` without
      a stats object, which throws after the first log line, so the latch is
      released in the same call and the host is never signalled (the marker
      write is never reached).
    */
    method HandleIdleShutdown(iso: string)
      modifies this`isShuttingDown, this`hostEvents, mqtt`outbox
      ensures !isShuttingDown
      ensures hostEvents == old(hostEvents)
      ensures mqtt.outbox == old(mqtt.outbox) + (if mqtt.isConnected then Mqtt.IdleShutdownBurst(None, iso, iso) else [])
    {
      isShuttingDown := true;
      var failed := ShutdownSequence(None, iso, false);
      if failed {
        isShuttingDown := false;
      }
    }

    /**
      `handleIdleShutdown` passing the last ping time and the uptime: the
      power-off commands go out, and the latch stays set exactly when the
      marker file was written.
    */
    method HandleIdleShutdownCorrected(now: int, iso: string, markerWritten: bool)
      modifies this`isShuttingDown, this`hostEvents, mqtt`outbox
      ensures isShuttingDown == markerWritten
      ensures hostEvents == old(hostEvents) + (if markerWritten then IdleMarkerEvents(iso) else [])
      ensures mqtt.outbox == old(mqtt.outbox)
        + (if mqtt.isConnected then Mqtt.IdleShutdownBurst(Some(IdleStatsAt(MonitorState(), now)), iso, iso) else [])
    {
      isShuttingDown := true;
      var stats := Mqtt.IdleStats(Some(lastPingTimestamp), Some(now - startupTime));
      var failed := ShutdownSequence(Some(stats), iso, markerWritten);
      if failed {
        isShuttingDown := false;
      }
    }

    /** First half of a tick: a gap of over 15 s is logged and counts as a ping. */
    method CheckClock(now: int, iso: string)
      modifies this`lastPingTimestamp, this`lastCheckTime, mqtt`outbox
      ensures MonitorState() == ClockChecked(old(MonitorState()), now)
      ensures mqtt.outbox == old(mqtt.outbox) + (if mqtt.isConnected then JumpMessages(old(MonitorState()), now, iso) else [])
    {
      if now - lastCheckTime > CLOCK_JUMP_MS {
        mqtt.Log(CLOCK_JUMP_TEXT, iso);
        lastPingTimestamp := now;
      }
      lastCheckTime := now;
    }

    /**
      Second half: the idle check, calling the handler as written when it is
      due; the handler throws, so the latch ends clear and the host is not
      signalled.
    */
    method CheckIdle(now: int, iso: string)
      modifies this`isShuttingDown, this`hostEvents, mqtt`outbox
      ensures MonitorState() == old(MonitorState())
      ensures mqtt.outbox == old(mqtt.outbox) + (if mqtt.isConnected then IdleMessages(old(MonitorState()), now, iso) else [])
      ensures hostEvents == old(hostEvents)
    {
      if now - startupTime > GRACE_PERIOD_MS && now - lastPingTimestamp > IDLE_TIMEOUT_MS && !isShuttingDown {
        HandleIdleShutdown(iso);
      }
    }

    /** The idle check calling the corrected handler. */
    method CheckIdleCorrected(now: int, iso: string, markerWritten: bool)
      modifies this`isShuttingDown, this`hostEvents, mqtt`outbox
      ensures MonitorState() ==
        if ShutdownDue(old(MonitorState()), now) then old(MonitorState()).(shuttingDown := markerWritten)
        else old(MonitorState())
      ensures mqtt.outbox == old(mqtt.outbox)
        + (if mqtt.isConnected then IdleMessagesCorrected(old(MonitorState()), now, iso) else [])
      ensures hostEvents == old(hostEvents)
        + (if ShutdownDue(old(MonitorState()), now) && markerWritten then IdleMarkerEvents(iso) else [])
    {
      if now - startupTime > GRACE_PERIOD_MS && now - lastPingTimestamp > IDLE_TIMEOUT_MS && !isShuttingDown {
        HandleIdleShutdownCorrected(now, iso, markerWritten);
      }
    }

    /**
      The per-second tick at time `now`: clock-jump check, idle check, then the
      health snapshot to every OPEN dashboard. `iso` stamps this tick's log
      lines, `localTime` the health frame. As written a firing tick publishes
      one log line and leaves the latch clear, so it fires again next second.
    */
    method Tick(now: int, iso: string,
                temp1: Option<string>, temp2: Option<string>, loadavg: Option<string>, wifi: Option<real>,
                clients: seq<WsLink.Client<Frame>>, localTime: string)
      requires forall i, j :: 0 <= i < j < |clients| ==> clients[i] != clients[j]
      modifies this`lastPingTimestamp, this`lastCheckTime, this`isShuttingDown, this`hostEvents
      modifies mqtt`outbox, set c | c in clients
      ensures MonitorState() == TickStep(old(MonitorState()), now, false)
      ensures mqtt.outbox == old(mqtt.outbox) + (if mqtt.isConnected then TickMessages(old(MonitorState()), now, iso) else [])
      ensures hostEvents == old(hostEvents)
      ensures forall i :: 0 <= i < |clients| ==>
        clients[i].readyState == old(clients[i].readyState)
        && clients[i].sent == old(clients[i].sent)
           + WsLink.Delivered(old(clients[i].readyState),
               HealthUpdate(Snapshot(temp2, loadavg, currentBatteryPct, currentVoltage, distance, wifi, usbPowerState),
                            localTime))
    {
      ghost var m0, out0 := MonitorState(), mqtt.outbox;
      CheckClock(now, iso);
      CheckIdle(now, iso);
      assert MonitorState() == TickStep(m0, now, false);
      assert mqtt.outbox == out0 + (if mqtt.isConnected then TickMessages(m0, now, iso) else []);
      PushHealth(temp1, temp2, loadavg, wifi, clients, localTime);
    }

    /**
      The tick with the corrected handler: `markerWritten` says whether the
      marker file write succeeds; the exit is scheduled only then.
    */
    method TickCorrected(now: int, iso: string, markerWritten: bool,
                temp1: Option<string>, temp2: Option<string>, loadavg: Option<string>, wifi: Option<real>,
                clients: seq<WsLink.Client<Frame>>, localTime: string)
      requires forall i, j :: 0 <= i < j < |clients| ==> clients[i] != clients[j]
      modifies this`lastPingTimestamp, this`lastCheckTime, this`isShuttingDown, this`hostEvents
      modifies mqtt`outbox, set c | c in clients
      ensures MonitorState() == TickStep(old(MonitorState()), now, markerWritten)
      ensures mqtt.outbox == old(mqtt.outbox)
        + (if mqtt.isConnected then TickMessagesCorrected(old(MonitorState()), now, iso) else [])
      ensures hostEvents == old(hostEvents)
        + (if FiresAt(old(MonitorState()), now) && markerWritten then IdleMarkerEvents(iso) else [])
      ensures forall i :: 0 <= i < |clients| ==>
        clients[i].readyState == old(clients[i].readyState)
        && clients[i].sent == old(clients[i].sent)
           + WsLink.Delivered(old(clients[i].readyState),
               HealthUpdate(Snapshot(temp2, loadavg, currentBatteryPct, currentVoltage, distance, wifi, usbPowerState),
                            localTime))
    {
      ghost var m0, out0 := MonitorState(), mqtt.outbox;
      CheckClock(now, iso);
      ghost var c := MonitorState();
      assert FiresAt(m0, now) == ShutdownDue(c, now);
      CheckIdleCorrected(now, iso, markerWritten);
      assert MonitorState() == TickStep(m0, now, markerWritten);
      assert mqtt.outbox == out0 + (if mqtt.isConnected then TickMessagesCorrected(m0, now, iso) else []);
      PushHealth(temp1, temp2, loadavg, wifi, clients, localTime);
    }

    /** Last part of a tick: the snapshot to every OPEN dashboard and no other. */
    method PushHealth(temp1: Option<string>, temp2: Option<string>, loadavg: Option<string>, wifi: Option<real>,
                      clients: seq<WsLink.Client<Frame>>, localTime: string)
      requires forall i, j :: 0 <= i < j < |clients| ==> clients[i] != clients[j]
      modifies set c | c in clients
      ensures forall i :: 0 <= i < |clients| ==>
        clients[i].readyState == old(clients[i].readyState)
        && clients[i].sent == old(clients[i].sent)
           + WsLink.Delivered(old(clients[i].readyState),
               HealthUpdate(Snapshot(temp2, loadavg, currentBatteryPct, currentVoltage, distance, wifi, usbPowerState),
                            localTime))
    {
      var health := GetSystemStats(temp1, temp2, loadavg, wifi);
      WsLink.Broadcast(clients, HealthUpdate(health, localTime));
    }

    /**
      A dashboard frame: a `PING` from any client refreshes the one shared
      ping time and is answered with exactly one `PONG` to that client;
      anything else, malformed JSON included, changes nothing.
    */
    method OnClientMessage(ws: WsLink.Client<Frame>, m: WsLink.Inbound, now: int)
      modifies this`lastPingTimestamp, ws`sent
      ensures WsLink.IsPing(m) ==> MonitorState() == Step(old(MonitorState()), Ping(now), true)
      ensures WsLink.IsPing(m) ==> ws.sent == old(ws.sent) + [Pong]
      ensures !WsLink.IsPing(m) ==> lastPingTimestamp == old(lastPingTimestamp) && ws.sent == old(ws.sent)
    {
      if WsLink.IsPing(m) {
        lastPingTimestamp := now;
        ws.sent := ws.sent + [Pong];
      }
    }

    /**
      `POST /api/system/usb-power`: any action other than `on` switches the
      hub off. The state is recorded only when the hub command succeeded.
    */
    method SetUsbPower(action: Option<string>, execOk: bool) returns (hubState: string, reply: CameraApi.Reply)
      modifies this`usbPowerState
      ensures hubState == (if action == Some("on") then "1" else "0")
      ensures execOk ==> usbPowerState == (action == Some("on"))
      ensures !execOk ==> usbPowerState == old(usbPowerState)
      ensures reply.status == (if execOk then 200 else 500)
      ensures execOk ==> reply.message == (if action == Some("off") then "USB Audio disconnected" else "USB Audio re-enabled")
    {
      hubState := if action == Some("on") then "1" else "0";
      if !execOk {
        reply := CameraApi.Reply(500, "Failed to toggle USB power. Is uhubctl installed?");
        return;
      }
      usbPowerState := action == Some("on");
      reply := CameraApi.Reply(200, if action == Some("off") then "USB Audio disconnected" else "USB Audio re-enabled");
    }

    /** `POST /api/system/shutdown`: the write has no `try`, so a failure is Express's 500. */
    method RequestShutdown(iso: string, writeOk: bool) returns (reply: CameraApi.Reply)
      modifies this`hostEvents
      ensures hostEvents == old(hostEvents) + (if writeOk then [ShutdownRequested("shutdown requested at " + iso)] else [])
      ensures reply.status == (if writeOk then 200 else 500)
    {
      if !writeOk {
        return CameraApi.Reply(500, "");
      }
      hostEvents := hostEvents + [ShutdownRequested("shutdown requested at " + iso)];
      reply := CameraApi.Reply(200, "Host shutdown signal sent to Pi.");
    }

    /** `POST /api/system/reboot`. */
    method RequestReboot(writeOk: bool) returns (reply: CameraApi.Reply)
      modifies this`hostEvents
      ensures hostEvents == old(hostEvents) + (if writeOk then [RebootRequested] else [])
      ensures reply == if writeOk then CameraApi.Reply(200, "Host reboot sequence initiated.")
                       else CameraApi.Reply(500, "Failed to write signal file")
    {
      if !writeOk {
        return CameraApi.Reply(500, "Failed to write signal file");
      }
      hostEvents := hostEvents + [RebootRequested];
      reply := CameraApi.Reply(200, "Host reboot sequence initiated.");
    }
  }
}
