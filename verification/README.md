# Rover control core in Dafny

This project models the decision logic of a small tele-operated rover. The rover's software has four parts:

- a Node.js server on the Raspberry Pi;
- an MQTT power-control channel to a cloud broker;
- a Python I2C motor-driver layer;
- a React dashboard.

It also models the earlier stand-alone dashboard server. For each part, the model proves what that code promises.

Each source file has its own module:

| module | file(s) | form |
|---|---|---|
| `RoverServer` | `server/src/server.js` | class `ServerState` (the process-wide `let`s) and pure monitor/snapshot functions |
| `CameraApi` | `server/src/server.js:199-308` | pure request → outcome functions |
| `Mqtt` | `server/src/services/mqttService.js` | class `MqttService` and a pure link state machine |
| `Iic` | `server/driver/IIC.py` | byte codecs as functions, the bus as a class with a write log |
| `RoverDriver` | `server/driver/RoverDriver.py` | `update_movement` as a function (straight-line code) |
| `SysUtils` | `server/utils/sysUtils.js` | functions over command output given as parameters |
| `LegacyServer` | `server/server.js` | functions and methods over the same |
| `ControlCluster`, `App`, `LoginOverlay` | the dashboard components | one class per component state |
| `WifiSignal` | `dashboard/src/components/WifiSignal.jsx` | pure functions |
| `WsLink` | shared by both servers | WebSocket client, frame parse, OPEN-only broadcast |
| `JsText`, `Wrappers` | — | JavaScript string built-ins on `seq<char>`; `Option` |

Conventions used throughout the model:

- **Timers are calls.** `setInterval` and `setTimeout` become explicit calls such as `Tick(now)`, with `now` in milliseconds.
- **Outside results are parameters.** Subprocess and file output is a parameter, with `None` for a command that threw. So is whether a file write or a PATCH succeeded.
- **The broker is a log.** What the server hands the MQTT client is the `outbox` sequence. What it hands each browser is `Client.sent`.
- **Host signals are events.** Marker files and `process.exit` are `HostEvent`s.
- **Floats are reals.** JavaScript numbers that carry voltages, loads or percentages are `real`; the driver's wheel speeds are exact integers.

## Model

| member | source | states |
|---|---|---|
| SysUtils.GetCpuTempStripsReading | server/utils/sysUtils.js:5-8 | For output `temp=<t>'C` plus a newline, with no quote in `t`, the result is exactly `t`: only the first `temp=` and the first `'C`+newline are removed |
| SysUtils.StripTemp | server/utils/sysUtils.js:8 | At most the `temp=` prefix and the `'C`+newline suffix are removed: the text shrinks by at most their 8 characters and never grows |
| SysUtils.GetCpuTemp | server/utils/sysUtils.js:5-13 | A failing command gives `"-"`; otherwise the result is never longer than the command output |
| SysUtils.GetCpuTempFailure | server/utils/sysUtils.js:9-12 | A failing temperature command reads as `"-"` |
| SysUtils.CappedLoad | server/utils/sysUtils.js:25 | `min(floor(load/4*100), 100)` is at most 100, equals 100 exactly when the load is at least 4, and is non-negative for a non-negative load |
| SysUtils.GetCpuLoad | server/utils/sysUtils.js:22-26 | The result is absent exactly when the read failed: there is no `try`, so the caller sees the failure. A parsed percentage never exceeds 100 |
| SysUtils.GetCpuLoadFirstTokenOnly | server/utils/sysUtils.js:23-24 | Only the first space-separated token of `/proc/loadavg` affects the load |
| SysUtils.GetBattery | server/utils/sysUtils.js:15-20 | The estimate is never below 0, and never above 100 for a non-negative elapsed time |
| SysUtils.GetBatteryDrains | server/utils/sysUtils.js:16-19 | It reads 100 at start, and it never rises as time passes |
| JsText.ReplaceFirstAbsent | server/utils/sysUtils.js:8 | `replace` with a string pattern that does not occur returns the string unchanged |
| JsText.ReplaceFirstAt | server/utils/sysUtils.js:8 | With the first occurrence at `i`, exactly that occurrence is replaced and the rest is kept |
| JsText.ReplaceFirst | server/utils/sysUtils.js:8 | `replace` either leaves the length unchanged (no occurrence) or swaps one pattern for the replacement |
| JsText.IncludesIffOccurs | server/server.js:128 | `includes` holds exactly when the substring occurs at some index |
| JsText.FirstTokenIsPrefix | server/utils/sysUtils.js:24 | `split(" ")[0]` is a space-free prefix that ends at the first space or at the end |
| JsText.FirstTokenIgnoresRest | server/utils/sysUtils.js:24 | Text after the first space never changes the first token |
| JsText.ParseFloatIntText | server/utils/sysUtils.js:25 | `parseFloat` of an integer's decimal text gives that integer back |
| JsText.ParseIntText | server/server.js:102 | `parseInt` of an integer's text followed by a non-digit (the file's newline) gives that integer back |
| Iic.Word | server/driver/IIC.py:90 | A high byte and a low byte form a word in [0, 65536) |
| Iic.SpeedFrame | server/driver/IIC.py:41-48 | Exactly 8 bytes, each in [0, 255]: the high byte then the low byte of m1, m2, m3, m4, in order |
| Iic.SpeedBytesWrap | server/driver/IIC.py:44-47 | Any speed is sent modulo 2^16 |
| Iic.SpeedBytesSigned | server/driver/IIC.py:44-47 | For −32768 ≤ m ≤ 32767, the two bytes read as signed 16-bit two's complement give m back |
| Iic.SpeedBytesUnsigned | server/driver/IIC.py:44-47 | For 0 ≤ m ≤ 65535, `hi*256+lo` equals m |
| Iic.DecodeS32 | server/driver/IIC.py:58-61 | The 32-bit decode of four bytes lies in [−2^31, 2^31) |
| Iic.DecodeEncodeS32 | server/driver/IIC.py:58-61 | Decoding inverts big-endian two's-complement encoding for every 32-bit signed value |
| Iic.EncodeDecodeS32 | server/driver/IIC.py:58-61 | Encoding inverts decoding for every 4-byte block, so the two are a bijection |
| Iic.ReadEncoders | server/driver/IIC.py:52-63 | It reads motor i at register 0x20 + 2i, for i = 0..3. It returns four decoded values in motor order, or nothing when any read fails (no `try`) |
| Iic.BatteryMillivolts | server/driver/IIC.py:87-93 | The reading is `hi*256+lo` in [0, 65535]; a failed read gives 0 |
| Iic.ReadBatteryVoltage | server/driver/IIC.py:82-93 | The voltage is the millivolts over 1000, in [0, 65.536): a failed read gives 0.0, and otherwise volts × 1000 is exactly the big-endian word `hi*256+lo` |
| Iic.WheelDiameterIs67 | server/driver/IIC.py:33-34 | The four wheel-diameter bytes are 67.0 as a little-endian IEEE 754 binary32 |
| Iic.MotorParamWrites | server/driver/IIC.py:24-38 | The configuration is five block writes, all to the board address 0x26 |
| Iic.MotorParamOrder | server/driver/IIC.py:27-36 | The registers go in the order type, pulse-phase, pulse-line, wheel diameter, deadzone. The payloads are `[1]`, `[0,30]`, `[0,11]`, the four diameter bytes, which read as 67.0 in little-endian IEEE 754 binary32, and `[6,64]`, which is 1600 big-endian |
| Iic.Bus.constructor | server/driver/IIC.py:6 | A fresh bus has written nothing |
| Iic.Bus.I2cWrite | server/driver/IIC.py:20-21 | One block write to address 0x26 is appended |
| Iic.Bus.SetMotorParams | server/driver/IIC.py:24-38 | It appends exactly the five configuration writes, in order |
| Iic.Bus.ControlSpeed | server/driver/IIC.py:41-49 | It appends one write of the 8-byte speed frame to register 0x06 |
| RoverDriver.UpdateMovement | server/driver/RoverDriver.py:11-43 | Motors get (L, L, R, R). Exactly two commands are issued when L = R = 0 (the speed command and then the zero-PWM stop) and exactly one otherwise. The status line reports L, R, the keys and the voltage that was read, and is absent when the voltage call raised |
| RoverDriver.Wheels | server/driver/RoverDriver.py:15-25 | L + R is twice the forward component. While driving, L − R is twice the steering. Without a forward key the wheels turn in opposite directions at full speed 500, left forward for `d` and backward for `a`, and stop when the steering keys cancel |
| RoverDriver.WheelsDependOnMembershipOnly | server/driver/RoverDriver.py:15-18 | Only membership of w/a/s/d matters: order, duplicates and other strings do not |
| RoverDriver.WheelsTable | server/driver/RoverDriver.py:7-25 | The key combinations give these speeds: [] → (0,0); w → (500,500); s → (−500,−500); a → (−500,500); d → (500,−500); w+d → (650,350); w+a → (350,650); s+d → (−350,−650); s+a → (−650,−350) |
| RoverDriver.OppositeKeysCancel | server/driver/RoverDriver.py:15-25 | w with s has no forward component; a with d has no steering |
| RoverDriver.WheelsBounded | server/driver/RoverDriver.py:24-25 | \|L\|, \|R\| ≤ 650 and L + R = 2v |
| RoverDriver.StopsExactlyWhenBalanced | server/driver/RoverDriver.py:20-25 | Both wheels stop exactly when the forward keys cancel and the steering keys cancel |
| RoverDriver.SpeedFrameCarriesWheels | server/driver/RoverDriver.py:24-30 | The speed frame for any key set decodes back to exactly L, L, R, R |
| Mqtt.Serialize | server/src/services/mqttService.js:77-79 | A string payload is sent as itself; an object is sent as a JSON object text |
| Mqtt.SerializeUndefinedFields | server/src/services/mqttService.js:103-107 | With undefined stats fields, the debug object carries only its reason |
| Mqtt.SerializeCarriesFields | server/src/services/mqttService.js:103-107 | The debug object text always carries `"reason":"idle_timeout"`. A defined `lastPing` or `uptime` appears as `"last_ping":<n>` or `"uptime":<n>`, followed by the next field or the closing brace; an undefined one leaves no trace of its key, as `JSON.stringify` drops undefined values |
| Mqtt.LogLine | server/src/services/mqttService.js:89-91 | The line is `[<iso>] [PI]: <message>`: bracketed time first, then the ` [PI]: ` tag, message last, 9 extra characters |
| Mqtt.IdleShutdownBurst | server/src/services/mqttService.js:99-114 | One message without stats (the trigger log, after which the read of `stats.lastPing` throws) and five with them. The first is always the trigger log on `rover/logs`; with stats the second is the serialized debug object |
| Mqtt.IdleShutdownBurstOrder | server/src/services/mqttService.js:99-114 | With stats, the topics are log, debug, `rover/power/pi` (`Off 15000`), `rover/power/aux` (`Off`), log. Without stats, only the first log goes out. All messages use qos 1, and the Pi power-off is sent exactly when stats are given |
| Mqtt.Step | server/src/services/mqttService.js:39-65 | Only a connect event brings the link up. Error and close take it down and keep the retry count. The count grows, by exactly 1, only on a reconnect |
| Mqtt.Run | server/src/services/mqttService.js:39-65 | Over a run of events the retry count grows by at most one per event, the link is up only if it was or a connect occurred, and a run ending in a connect leaves the link up with count 0 |
| Mqtt.RunCountsRetries | server/src/services/mqttService.js:39-65 | Over any run of events, the retry count is the number of reconnects since the last connect. The link is up exactly when the last connect/error/close event was a connect |
| Mqtt.MqttService.constructor | server/src/services/mqttService.js:18-22 | No client, not connected, retry count 0 |
| Mqtt.MqttService.Connect | server/src/services/mqttService.js:28-35 | It is idempotent: with a client already present nothing changes. It never marks the link up |
| Mqtt.MqttService.OnConnect | server/src/services/mqttService.js:39-48 | Link up, retries reset to 0, `rover/commands/#` subscribed |
| Mqtt.MqttService.OnReconnect | server/src/services/mqttService.js:50-55 | The retry count grows by exactly 1 |
| Mqtt.MqttService.OnError | server/src/services/mqttService.js:57-60 | The link goes down |
| Mqtt.MqttService.OnClose | server/src/services/mqttService.js:62-65 | The link goes down |
| Mqtt.MqttService.Publish | server/src/services/mqttService.js:71-84 | Exactly one serialized message (default qos 1) is handed over while connected. Nothing is handed over, and nothing is raised, otherwise |
| Mqtt.MqttService.Log | server/src/services/mqttService.js:89-94 | One formatted line on `rover/logs` |
| Mqtt.MqttService.TriggerIdleShutdown | server/src/services/mqttService.js:99-114 | It hands over the idle-shutdown burst. It throws exactly when no stats object is given, right after the first log |
| Mqtt.MqttService.PublishUsbState | server/src/services/mqttService.js:119-121 | `ON` or `OFF` on `rover/status/usb` |
| WsLink.Delivered | server/src/server.js:386-390 | A client receives a broadcast frame exactly when its state is OPEN, and at most once |
| WsLink.Broadcast | server/src/server.js:386-390 | Every OPEN client gets the frame once, every other client nothing, and no ready state changes |
| CameraApi.NightVisionRequest | server/src/server.js:199-235 | A wrong or missing secret gives 401 and no patch. Otherwise the night or normal profile is patched, with 200 exactly when the patch succeeded and 500 otherwise |
| CameraApi.FocusRequest | server/src/server.js:237-265 | Same gate. The focus patch for the mode is sent; on success the reply is `Focus set to <mode>` |
| CameraApi.ResolutionRequest | server/src/server.js:267-294 | Same gate. The frame-size patch is sent; on success the reply names the requested mode |
| CameraApi.SettingsRequest | server/src/server.js:296-308 | The settings are forwarded untouched, with 200 exactly when the patch succeeded |
| CameraApi.SecretGatesCamera | server/src/server.js:199-294 | Only the exact secret reaches MediaMTX on nightvision, focus and resolution. Any other secret gives 401 on all three |
| CameraApi.SettingsIgnoresSecret | server/src/server.js:296-308 | `/settings` behaves the same whatever secret is sent, or none |
| CameraApi.NightVisionConfig | server/src/server.js:203-222 | The night profile is the one with long exposure, a manual shutter and a frame rate under 60; the day profile resets gain to 0 and contrast and saturation to 1 |
| CameraApi.FocusConfig | server/src/server.js:243-254 | Continuous autofocus, and no lens position, exactly for `auto`. Any manual lens position lies in [0, 10] |
| CameraApi.ResolutionConfig | server/src/server.js:271-283 | A known mode sends its own width and height; any other sends 1280x720. Every size sent is 4:3 or 16:9 |
| CameraApi.FocusModes | server/src/server.js:243-254 | `auto` gives continuous autofocus with no lens position. Every other mode is manual: near → 10, normal → 5, anything else → 0 |
| CameraApi.ResolutionFallback | server/src/server.js:271-290 | Known modes send their own size. An unknown or missing mode sends 1280x720, while the reply still names the requested mode |
| RoverServer.LastN | server/src/server.js:77-83 | The window holds min(n, \|s\|) readings, and they are the last ones of `s` |
| RoverServer.LastNPush | server/src/server.js:77-83 | Push-then-shift of the old window equals the window of the extended sequence |
| RoverServer.MeanBounds | server/src/server.js:86-87 | The window mean lies between the smallest and the largest reading |
| RoverServer.CalculatePercentage | server/src/server.js:442-447 | The result is in [0, 100]: 0 at or below 9 V and 100 at or above 12.6 V |
| RoverServer.PercentageMonotone | server/src/server.js:442-447 | A higher voltage never gives a lower percentage |
| RoverServer.PercentageOnCurve | server/src/server.js:445 | Inside [9, 12.6] V the curve is linear: any two voltages differ in percentage by 100/3.6 per volt, and 10.8 V gives 50 |
| RoverServer.PercentageFollowsWindow | server/src/server.js:86-90 | The percentage follows the window mean, not the latest reading |
| RoverServer.ClockChecked | server/src/server.js:356-361 | The tick time becomes the last check. A gap over 15 s since the last check refreshes the ping time to now; a smaller gap keeps it. Startup time and latch are unchanged |
| RoverServer.FiresAt | server/src/server.js:363-374 | A tick that fires follows no clock jump and finds the latch clear |
| RoverServer.TickStep | server/src/server.js:352-374 | After a tick the check time is now and the ping is as the clock check left it. The latch becomes whether the handler's action completed when the tick fires, and is unchanged otherwise |
| RoverServer.FiresAtExactly | server/src/server.js:356-374 | A tick calls the handler exactly when four conditions hold: no clock jump (≤ 15 s since the last tick), strictly past the 2-minute grace, strictly over 5 minutes since the last ping, and latch clear. So a clock-jump tick never fires |
| RoverServer.PingPostpones | server/src/server.js:363-374 | No tick within 5 minutes of a ping fires |
| RoverServer.NoFiringWithinGrace | server/src/server.js:66-74 | No tick within the grace period fires, whatever the pings and clock jumps |
| RoverServer.LatchedNeverFires | server/src/server.js:368-374 | While the latch is set nothing fires, and it stays set |
| RoverServer.CompletedShutdownFiresOnce | server/src/server.js:449-464 | When the shutdown action completes, the handler runs at most once over any run of events |
| RoverServer.FailedShutdownRefires | server/src/server.js:449-469 | When the action throws, every idle tick after the grace period fires again |
| RoverServer.TickNeverPowersOff | server/src/server.js:352-374 | As written (`handleIdleShutdown` at lines 449-469 passes no stats), no tick ever sends the Pi or auxiliary power-off: besides the clock-jump log a tick hands over exactly one message, the trigger log, when it fires, and none otherwise |
| RoverServer.TickPowersOffIffFires | server/src/server.js:352-374 | With the corrected handler, a tick sends the Pi power-off exactly when it fires |
| RoverServer.Snapshot | server/src/server.js:418-439 | `camDetected` is false and `throttled` is `Stable`. The load is missing exactly when its read failed, every later field needs the load, and the USB state needs the Wi-Fi level |
| RoverServer.SnapshotPartialFill | server/src/server.js:418-439 | `cpuTemp`, `camDetected: false` and `throttled: "Stable"` are always present. A failed load read drops every later field. A failed Wi-Fi read drops the USB state. The load never exceeds 100 |
| RoverServer.ServerState.constructor | server/src/server.js:57-70 | Zero readings, empty window, ping/check/startup at `now`, latch clear, USB on. The broker service is asked to connect |
| RoverServer.ServerState.OnVoltageLine | server/src/server.js:72-96 | An accepted reading (type `voltage` and a non-zero value) becomes the current voltage. The window stays the last 20 accepted readings, the percentage is recomputed from the window mean, and the distance defaults to 0. Anything else changes nothing |
| RoverServer.ServerState.GetSystemStats | server/src/server.js:418-439 | It returns the partial-fill snapshot, built from the second temperature reading |
| RoverServer.ServerState.ShutdownSequence | server/src/server.js:453-464 | It throws exactly when stats are missing or the marker write failed. The burst goes to the broker; the marker and the exit are left only on success |
| RoverServer.ServerState.HandleIdleShutdown | server/src/server.js:449-469 | As written, without a stats argument: only the trigger log goes out, no host event happens, and the latch is clear again on return |
| RoverServer.ServerState.HandleIdleShutdownCorrected | server/src/server.js:449-469 | With stats passed: the full burst goes out, and the latch stays set exactly when the marker file was written |
| RoverServer.ServerState.CheckClock | server/src/server.js:356-361 | A gap over 15 s logs the jump and counts as a ping. The tick time is always recorded |
| RoverServer.ServerState.CheckIdle | server/src/server.js:363-374 | As written (through `handleIdleShutdown`, lines 449-469): the trigger log goes out exactly when the shutdown is due, and the monitor state and the host events are unchanged |
| RoverServer.ServerState.CheckIdleCorrected | server/src/server.js:363-374 | With the corrected handler: when the shutdown is due the burst goes out, the latch becomes whether the marker was written, and the marker and exit follow only then; otherwise nothing changes |
| RoverServer.ServerState.Tick | server/src/server.js:352-393 | As written: the monitor takes one `TickStep` whose action never completes, so the latch is never left set. The broker gets the jump log and the trigger log exactly when they are due. No host event happens. Every OPEN dashboard gets the snapshot |
| RoverServer.ServerState.TickCorrected | server/src/server.js:352-393 | With the corrected handler: the monitor takes one `TickStep` that completes exactly when the marker was written. The broker gets the jump log and the full burst when due. The marker and exit follow only a completed firing. Every OPEN dashboard gets the snapshot |
| RoverServer.ServerState.PushHealth | server/src/server.js:376-390 | The snapshot goes to OPEN clients only |
| RoverServer.ServerState.OnClientMessage | server/src/server.js:398-409 | A PING refreshes the one shared ping time and gets exactly one PONG. Anything else, malformed JSON included, changes nothing |
| RoverServer.ServerState.SetUsbPower | server/src/server.js:310-335 | The hub state is `1` only for `on`. The USB state is recorded only when the command succeeded. The reply is 200 or 500, with a warning that says "disconnected" only for `off` |
| RoverServer.ServerState.RequestShutdown | server/src/server.js:178-187 | The marker is written with its timestamp, or the reply is 500 |
| RoverServer.ServerState.RequestReboot | server/src/server.js:189-197 | The reboot marker and 200, or 500 with the failure text |
| LegacyServer.GetCpuTemp | server/server.js:95-106 | A failed thermal read gives `"N/A"`; otherwise the reading in degrees, or NaN |
| LegacyServer.ThermalReading | server/server.js:102 | A well-formed thermal file of millidegrees reads as degrees (45000 → 45.0) |
| LegacyServer.ThrottleText | server/server.js:127-128 | The verdict is `Stable` or `Low Power!`, and `Stable` exactly when the output includes `0x0` |
| LegacyServer.ThrottleIffZero | server/server.js:127-128 | `Stable` exactly when `0x0` occurs in the throttle output, `Low Power!` otherwise |
| LegacyServer.SnapshotPartialFill | server/server.js:116-141 | If the first command fails, only the thermal reading and the defaults are present. A later failure keeps the earlier fields. The load appears only when everything ran, and is at most 100 |
| LegacyServer.Snapshot | server/server.js:116-141 | The camera is never detected. The load appears only when all three commands ran, and a `Low Power!` verdict only when the throttle command ran. A successful temperature command overwrites the thermal reading with text |
| LegacyServer.GetSystemStats | server/server.js:116-141 | It returns that snapshot |
| LegacyServer.Tick | server/server.js:39-56 | Every OPEN client, and no other, gets the snapshot with the battery estimate |
| LegacyServer.OnClientMessage | server/server.js:62-75 | A PING gets exactly one PONG; nothing else is sent |
| ControlCluster.DriveKeys | dashboard/src/components/ControlCluster.jsx:23-26 | Exactly the eight keys w/a/s/d/W/A/S/D drive. Each is sent as the upper-case label of its pad button |
| ControlCluster.ButtonsMatchKeys | dashboard/src/components/ControlCluster.jsx:12-19 | Every button's key is a drive key, and its label is that key in upper case |
| ControlCluster.Cluster.constructor | dashboard/src/components/ControlCluster.jsx:9 | No key held and no callback made |
| ControlCluster.Cluster.KeyDown | dashboard/src/components/ControlCluster.jsx:21-30 | A drive key is added and `onDrive` is called again even when the key is already held. Other keys change nothing. Held keys stay within {w,a,s,d} |
| ControlCluster.Cluster.KeyUp | dashboard/src/components/ControlCluster.jsx:32-45 | A drive key removes only itself and always calls `onStop` |
| ControlCluster.Cluster.MouseDown | dashboard/src/components/ControlCluster.jsx:96-99 | The button's key is added and `onDrive(label)` is called |
| ControlCluster.Cluster.MouseUp | dashboard/src/components/ControlCluster.jsx:100-107 | The key is removed and `onStop` is called, held or not |
| ControlCluster.Cluster.MouseLeave | dashboard/src/components/ControlCluster.jsx:108-117 | It removes the key and stops only when the key is held; otherwise nothing changes |
| WifiSignal.Level | dashboard/src/components/WifiSignal.jsx:5-11 | The level is always in [0, 4] |
| WifiSignal.LevelMonotone | dashboard/src/components/WifiSignal.jsx:5-11 | A stronger signal never shows a lower level |
| WifiSignal.LevelBoundaries | dashboard/src/components/WifiSignal.jsx:6-10 | The thresholds are strict: −55 gives 3 and −85 gives 0. A non-numeric reading gives 0 |
| WifiSignal.LevelCountsThresholds | dashboard/src/components/WifiSignal.jsx:5-11 | The level is the number of thresholds the reading is above |
| WifiSignal.Color | dashboard/src/components/WifiSignal.jsx:16-21 | Green exactly for levels 3 and up, red exactly for 0 and below, and never the unlit bar colour |
| WifiSignal.Bars | dashboard/src/components/WifiSignal.jsx:42-48 | There are four bars |
| WifiSignal.LitBars | dashboard/src/components/WifiSignal.jsx:16-48 | Exactly `level` bars are lit, and they are the lowest ones. Their colour is green for levels 3–4, yellow for 2 and orange for 1 |
| App.NextPan | dashboard/src/App.jsx:79-82 | The range [−90, 90] and the 5-degree grid are kept. `left` gives exactly max(pan − 5, −90) and `right` exactly min(pan + 5, 90). Other directions leave it unchanged |
| App.PanReachable | dashboard/src/App.jsx:76-83 | Starting from 0, any run of drives keeps the pan in [−90, 90] and on multiples of 5 |
| App.PanOnlyFromTurns | dashboard/src/App.jsx:76-83 | A run with neither `left` nor `right` leaves the pan at 0 |
| App.Dashboard.constructor | dashboard/src/App.jsx:9-15 | Pan 0, latency 0, no ping sent |
| App.Dashboard.Drive | dashboard/src/App.jsx:76-83 | The request goes out for every direction, and the pan takes one `NextPan` step |
| App.Dashboard.Stop | dashboard/src/App.jsx:85-86 | One stop request, and the pan is unchanged |
| App.Dashboard.SendPing | dashboard/src/App.jsx:38-41 | The ping time is overwritten, and one PING is sent |
| App.Dashboard.OnMessage | dashboard/src/App.jsx:31-36 | A PONG sets the latency to the time since the most recent ping; other frames change nothing |
| LoginOverlay.PowerOnPublishes | dashboard/src/components/LoginOverlay.jsx:32-35 | Payload `On` to `rover/power/pi` and then to `rover/power/aux`, with qos 1 and retain set |
| LoginOverlay.Overlay.constructor | dashboard/src/components/LoginOverlay.jsx:6-8 | Status IDLE, no error message, nothing done |
| LoginOverlay.Overlay.Submit | dashboard/src/components/LoginOverlay.jsx:10-12 | Status becomes CONNECTING, which disables the inputs and the button |
| LoginOverlay.Overlay.OnConnect | dashboard/src/components/LoginOverlay.jsx:28-63 | A fresh counter and the two power-on publishes. The invariant is kept: login success runs once for a connect event whose two publishes were both acknowledged, and never otherwise |
| LoginOverlay.Overlay.OnPublishResult | dashboard/src/components/LoginOverlay.jsx:38-63 | An error changes nothing. An acknowledgement counts, and the second one ends the client and then runs login success. The invariant is kept |
| LoginOverlay.Overlay.OnError | dashboard/src/components/LoginOverlay.jsx:66-71 | Status ERROR with `ACCESS_DENIED: CREDENTIALS_REJECTED`, the client is ended, and the inputs are enabled again |

## Left out

- Transports and frameworks are not modelled: Express routing, HTTPS, CORS, the `ws` server, the mqtt.js client and its reconnect timing, axios, `fetch` and WebRTC negotiation (dashboard/src/App.jsx:50-73). Only their outcomes appear, as parameters and logs.
- Subprocesses, shell commands and file I/O are parameters, or `HostEvent`s for the marker files and `process.exit`.
- `POST /api/camera/capture` (server/src/server.js:141-176) is only docker and `rpicam-still` calls around a reply, so it is not modelled.
- `POST /api/control/drive` (server/src/server.js:340-350) only forwards the keys to the driver process. The driver side of that hand-off is `RoverDriver.UpdateMovement`.
- The voltage request written to the monitor process at the end of each tick (server/src/server.js:392) is not modelled.
- The PythonShell logging hooks (server/src/server.js:33-55, 98-112) are not modelled.
- The legacy `/api/control/:direction` stub (server/server.js:28-36) only logs and echoes, so it is not modelled. Neither is the proxy setup.
- `getSimpleLoad` (server/server.js:108-114) is never called, so it is not modelled.
- `calculateBattery` (server/server.js:88-93) is the same computation as `getBattery`, so `LegacyServer.Tick` uses `SysUtils.GetBattery`.
- `RoverServer.CalculatePercentage`, `SysUtils.GetBattery`: `toFixed(1)` is left out. The percentage is the unrounded real, not the one-decimal string. The legacy `cpuTemp` reading is likewise the unrounded real.
- `JsText.ParseFloat`, `JsText.ParseInt`: they read an optional sign, digits and an optional fraction. Leading whitespace, exponents, `Infinity` and hexadecimal are not modelled.
- Binary64 rounding is not modelled anywhere. Voltages, loads and percentages are exact reals. The driver's `500 * 0.3` is exactly 150 as a double, so its integer model is exact.
- `CameraApi.ResolutionConfig`: only string modes are modelled. The inherited keys of the preset object literal (a mode of `constructor`, say) and non-string JSON values are not.
- `getWifiSignal` is imported by name from `server/utils/sysUtils.js`, but that file does not export it. As written, the ES-module link step should then fail when server/src/server.js loads (not executed). The model assumes the server runs, and gives the Wi-Fi reading as an external source that can fail, as a parameter.
- `RoverDriver.UpdateMovement`: `IIC.set_motor_parameter`, `IIC.control_pwm` and `IIC.get_battery_voltage` are called from the driver but are not defined in server/driver/IIC.py. They are modelled as the commands the driver intends, with the voltage as a parameter. The constructor's configuration call and the stdin loop are not modelled.
- `Iic.Bus.SetMotorParams`: the `time.sleep(0.1)` after each of the five configuration writes (server/driver/IIC.py:28-37) is not modelled; only the writes and their order are.
- `RoverServer.ServerState.constructor`: the source reads `Date.now()` three times for the check, ping and startup times (server/src/server.js:61-67); the model uses one `now` for all three.
- `get_distance_traveled_mm` (server/driver/IIC.py:65-80) is not modelled: it uses π arithmetic, and `math` is not imported there.
- The `__main__` demo loop of server/driver/IIC.py is not modelled.
- server/driver/VoltageMonitor.py, server/driver/TelemetryDistance.py and server/vision/depth.py are not part of this model.
- The rest of the dashboard is not part of this model, including RoverSchematic.jsx, SystemControls.jsx and VideoStream.jsx.
- Each tick uses one ISO timestamp for all its log lines and its marker, where the source reads the clock again for each one. One `localTime` stamps the health frame.
- The 200 ms delay before login success and the 3 s exit delay are not modelled as time. Their effects are applied in order.
- The 1 s clock display and the 3 s ping interval of the dashboard are calls, not timers.
- React state updates are applied at once. Batching is not modelled, and neither are stale closures: `MouseLeave` reads the current key set, while the source reads the set of the last render.
- The login form fields and the credentials handed to `onLoginSuccess` are not modelled. Only the status, the error message and the effects are.
- A repeated connect event in the login gate is modelled as a new counter, which is the closure the source creates for it.
- Console logging is not modelled anywhere.
- Where the comments and the code disagree, the model follows the code. The legacy server's comment says it pushes every 2 seconds, but the interval is 5000 ms.

## Findings

| source | as written | input that shows it | evidently intended | confidence | as-written member | corrected member |
|---|---|---|---|---|---|---|
| server/src/server.js:454 | `handleIdleShutdown` calls `mqttService.triggerIdleShutdown()` with no argument. `triggerIdleShutdown` then reads `stats.lastPing` (server/src/services/mqttService.js:105) and throws a TypeError after the first log publish. The `catch` clears `isShuttingDown`, so the power-off commands, the marker file and the exit never happen, and every later tick fires again | Startup at 0, no ping, ticks at 301 000 ms, 302 000 ms, …: each tick calls the handler and publishes only the first log line | Pass `{ lastPing: lastPingTimestamp, uptime: now - STARTUP_TIME }`. The power-off burst goes out, the latch stays set, and the handler runs at most once | not executed | RoverServer.ServerState.HandleIdleShutdown, RoverServer.ServerState.CheckIdle, RoverServer.ServerState.Tick, RoverServer.TickNeverPowersOff, RoverServer.FailedShutdownRefires | RoverServer.ServerState.HandleIdleShutdownCorrected, RoverServer.ServerState.CheckIdleCorrected, RoverServer.ServerState.TickCorrected, RoverServer.TickPowersOffIffFires, RoverServer.CompletedShutdownFiresOnce |
