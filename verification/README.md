# Remote excavator console — Dafny model of the control plane

This project models the control plane of a browser console that drives an
excavator over a peer-to-peer link: the session hook that owns the
signaling socket, the peer connection, the stats and heartbeat intervals and
the windowed packet-loss statistics (`hooks/useWebRTC.ts`); the
dual-joystick input hook with its dead-zone filter
(`hooks/useExcavatorGamepad.ts`); the command loop that merges device
controls with sparse UI overrides and sends the result only on an open data
channel (`components/GamepadControl.tsx`); and the small display-side
decisions of the drive bar, safety indicators, dashboard and console page.

Every browser callback becomes an explicit event; timers become interval
handles in the session record; the clock, randomness and the outcome of
foreign calls (whether the socket constructor throws, what `getStats()`
reports) become parameters. Everything is a pure function over immutable
datatypes.

Modules:

- `Optional` — `Option`, the model of `undefined`/`null` and of a missing
  property of a partial record.
- `LightBits` — light codes as 32-bit masks and their bitwise OR.
- `Schema` — the record types shared by several files: the wide controls
  record the merge reads, the partial override record, and the telemetry
  frame the display components read.
- `PeerSession` — the `Session` record, one handler function per callback,
  `Step` over an `Event`, and `Run` over a sequence of events.
  `SessionFacts` holds the properties that relate several events.
- `Gamepad` and `GamepadFacts` — dead-zone filter and axis mapping.
- `Command` and `CommandFacts` — the per-field merge and the send guard.
- `DriveBar`, `SafetyPanel`, `Dashboard`, `ConsolePage` — display logic.

Behaviours of this revision's code that the model keeps as written:

- The hook starts in `disconnected`; there is no separate idle state.
- A socket close only marks the session disconnected and clears the
  heartbeat. There is no reconnection, no backoff and no attempt counter.
  The closed socket also stays held, so `connect()` is a no-op from then
  on until `disconnect()` runs (`SessionFacts.CloseBlocksReconnect`).
- The dead-zone is a strict `> 0.1`, so a reading of exactly 0.1 becomes 0.
- There is no gear latch and no device classification. The input hook
  reads gamepads 0 and 1 as a fixed dual-joystick pair.
- There is no telemetry watchdog.
- Entering ICE `connected` stores a new stats interval over the old one
  without clearing it. The old interval then stays armed for good, and even
  `disconnect()` cannot reach it (`SessionFacts.IceConnectedAgainLeaksStatsTimer`,
  `SessionFacts.LeakedTimersStayLeakedForever`, `SessionFacts.LeakScenario`).
- The stats interval checks for a peer before it requests a report, not
  when the report resolves. A report requested before `disconnect()` and
  resolved after it re-installs the old connection's counters as baselines,
  a stats record and a ping; the next connection's first report is then
  measured against those counters
  (`SessionFacts.StaleReportAfterDisconnect`).
- A socket error marks the session disconnected; the socket it holds is
  already closed at that point, so nothing is sent over it again
  (`SessionFacts.SilentAfterSocketError`).

## Model

| member | source | states |
|---|---|---|
| `PeerSession.ClampDelta` | hooks/useWebRTC.ts:112-113 | a counter delta is clamped to be non-negative: the result is the delta or 0, never below the delta |
| `PeerSession.LossRate` | hooks/useWebRTC.ts:109-118 | the loss rate lies in [0, 100]; it is 0 without a baseline or for an empty window; otherwise rate × (Δlost + Δreceived) = 100 × Δlost with both deltas clamped at 0 |
| `PeerSession.Round` | hooks/useWebRTC.ts:136 | `Math.round` rounds half up: x − ½ < result ≤ x + ½ |
| `PeerSession.OnStatsRequested` | hooks/useWebRTC.ts:74-78 | the stats interval firing without a peer changes nothing; with a peer exactly one more report becomes outstanding |
| `PeerSession.OnStatsResolved` | hooks/useWebRTC.ts:109-137 | a resolving report is applied without checking for a peer: the baselines become the report's cumulative counters, the stats record carries the report's values and the windowed rate, the ping becomes round(rtt) only when rtt > 0, one fewer report is outstanding, and nothing else changes |
| `PeerSession.OnStatsFailed` | hooks/useWebRTC.ts:138-140 | a rejected report only settles the outstanding call; no metric changes |
| `PeerSession.SendSignaling` | hooks/useWebRTC.ts:143-153 | at most one message, sent exactly when the held socket is open, shaped `{type, from: identity, to: targetPeer, payload}` |
| `PeerSession.Heartbeat` | hooks/useWebRTC.ts:362-369 | a heartbeat tick sends one `ping` from this identity exactly when the socket is open |
| `PeerSession.OnConnect` | hooks/useWebRTC.ts:341-412 | a no-op when not enabled or a socket is already held; otherwise the state becomes connecting with a new socket, or disconnected with none when the socket constructor throws |
| `PeerSession.OnSocketOpened` | hooks/useWebRTC.ts:350-373 | on open: sends `register` with this identity, marks the socket open, arms a fresh heartbeat interval and holds a peer; state, stats interval and metrics unchanged |
| `PeerSession.OnSocketError` | hooks/useWebRTC.ts:391-394 | a socket error sets disconnected; a held socket now reads as closed; nothing else changes |
| `PeerSession.OnSocketClosed` | hooks/useWebRTC.ts:396-405 | a socket close sets disconnected and clears the heartbeat interval; it arms nothing, keeps the (now closed) socket held and leaves peer, stats interval and metrics alone |
| `PeerSession.OnIceChanged` | hooks/useWebRTC.ts:194-224 | ICE `connected` sets connected and stores a freshly armed stats interval; `failed`/`disconnected` set disconnected and clear the stored interval; any other ICE state changes nothing |
| `PeerSession.OnDisconnect` | hooks/useWebRTC.ts:430-467 | drops peer and socket, clears both stored intervals, nulls both baselines, sets disconnected, ping 0 and stats null |
| `PeerSession.Step` | hooks/useWebRTC.ts:39-56 | every event preserves the session invariant (armed handles are fresh-numbered, stored handles are armed and distinct, baselines are set together, ping ≥ 0, loss rate in [0, 100]); only the connect, socket, ICE and disconnect handlers move the state; only a resolved report or disconnect moves the baselines or ping; a message is sent only with the socket then open |
| `PeerSession.Run` | hooks/useWebRTC.ts:39-56 | the invariant holds after any sequence of events; with no resolved report and no disconnect the baselines stay as they were |
| `SessionFacts.LossRateZeroIff` | hooks/useWebRTC.ts:110-117 | the rate is 0 exactly when there is no baseline or no packet was lost in the window |
| `SessionFacts.LossRateFullIff` | hooks/useWebRTC.ts:112-117 | the rate is 100 exactly when there is a baseline, packets were lost and none were received in the window |
| `SessionFacts.LossRateIsWindowed` | hooks/useWebRTC.ts:109-122 | the rate depends only on the deltas: shifting baseline and counter by the same amount leaves it unchanged |
| `SessionFacts.LossRateWindowExample` | hooks/useWebRTC.ts:112-116 | lost 10→14 and received 90→186 give 4% |
| `SessionFacts.CounterResetCountsAsNoLoss` | hooks/useWebRTC.ts:112 | a cumulative lost counter that went down gives rate 0 |
| `SessionFacts.NoReportKeepsNoBaseline` | hooks/useWebRTC.ts:121-122 | only a resolved stats report installs a baseline |
| `SessionFacts.NoRequestNoReport` | hooks/useWebRTC.ts:74-78 | with nothing outstanding and no stats interval tick, no stats record and no baseline ever appear |
| `SessionFacts.StaleReportAfterDisconnect` | hooks/useWebRTC.ts:75-137 | a report requested with a peer held and resolved after `disconnect()` re-installs baselines, stats and ping with no peer or socket held, and the next report is measured against its counters |
| `SessionFacts.FirstReportAfterDisconnectIsLossless` | hooks/useWebRTC.ts:461-462 | the first report to resolve after `disconnect()`, whatever events came between, reports 0% loss |
| `SessionFacts.FirstReportAfterStartIsLossless` | hooks/useWebRTC.ts:55-56 | the first report to resolve after the hook starts reports 0% loss |
| `SessionFacts.PingStaysWithoutReport` | hooks/useWebRTC.ts:135-137 | from ping 0, no event other than a resolved stats report changes the ping |
| `SessionFacts.PingZeroUntilFirstReport` | hooks/useWebRTC.ts:465 | after `disconnect()` the ping stays 0 until a stats report resolves |
| `SessionFacts.ConsecutiveReportsUseTheirDifference` | hooks/useWebRTC.ts:111-122 | the second of two reports computes its rate from the first report's counters |
| `SessionFacts.InitValid` | hooks/useWebRTC.ts:39-56 | the initial session (disconnected, nothing held or armed, null baselines, ping 0) satisfies the invariant `Run` preserves |
| `SessionFacts.IceConnectedAgainLeaksStatsTimer` | hooks/useWebRTC.ts:202-204 | entering ICE `connected` with an interval stored leaves that interval armed and referenced by no field |
| `SessionFacts.LeakedTimersStayLeaked` | hooks/useWebRTC.ts:453-460 | no event clears an interval no field refers to |
| `SessionFacts.LeakedTimersStayLeakedForever` | hooks/useWebRTC.ts:453-460 | the same over any sequence of events, `disconnect()` included |
| `SessionFacts.LeakScenario` | hooks/useWebRTC.ts:197-204 | connect, open, ICE connected twice, disconnect: the first stats interval is still armed |
| `SessionFacts.DisconnectClearsAllReferencedTimers` | hooks/useWebRTC.ts:453-460 | after `disconnect()` exactly the leaked intervals remain armed, and the invariant holds |
| `SessionFacts.SocketStaysHeldUntilDisconnect` | hooks/useWebRTC.ts:449-452 | only `disconnect()` releases a held socket |
| `SessionFacts.CloseBlocksReconnect` | hooks/useWebRTC.ts:396-405 | after a socket close, `connect()` is a no-op until `disconnect()`; nothing reconnects |
| `SessionFacts.SilentWithoutSocket` | hooks/useWebRTC.ts:143-153 | with no socket held, nothing is sent until `connect()` |
| `SessionFacts.SilentAfterDisconnect` | hooks/useWebRTC.ts:449-452 | after `disconnect()`, nothing is sent until `connect()` |
| `SessionFacts.SilentOnceClosed` | hooks/useWebRTC.ts:143-153 | once the held socket is closed nothing is sent and it stays closed until `disconnect()`; a late open event does nothing |
| `SessionFacts.SilentAfterSocketError` | hooks/useWebRTC.ts:391-394 | after a socket error nothing is sent over the held socket until `disconnect()` |
| `SessionFacts.ConnectScenario` | hooks/useWebRTC.ts:341-373 | connect, open, ICE connected: one `register` sent, state connected, heartbeat and stats intervals both armed |
| `Gamepad.Normalize` | hooks/useExcavatorGamepad.ts:38-40 | the output is the input or 0; it is non-zero exactly when the magnitude exceeds the dead-zone; its magnitude never grows |
| `Gamepad.AxisValue` | hooks/useExcavatorGamepad.ts:65 | an in-range axis is filtered; an axis past the end of the array reads as 0 |
| `Gamepad.PadAt` | hooks/useExcavatorGamepad.ts:57-59 | a slot past the end of the gamepad list reads as no gamepad |
| `Gamepad.Poll` | hooks/useExcavatorGamepad.ts:63-82 | swing, stick, left track come from gamepad 0 axes 0, 1, 6; bucket, boom, right track from gamepad 1 axes 0, 1, 6; each filtered, 0 when the gamepad is absent |
| `GamepadFacts.NormalizeIdempotent` | hooks/useExcavatorGamepad.ts:38-40 | filtering twice equals filtering once |
| `GamepadFacts.NormalizeBoundary` | hooks/useExcavatorGamepad.ts:31 | ±0.1 maps to 0; ±0.11 passes unchanged |
| `GamepadFacts.NormalizePreservesSign` | hooks/useExcavatorGamepad.ts:38-40 | the filter never flips a reading's sign |
| `GamepadFacts.SmallSwingIsZero` | hooks/useExcavatorGamepad.ts:64-66 | a swing reading of 0.03 becomes exactly 0 |
| `GamepadFacts.LeftPadAbsent` | hooks/useExcavatorGamepad.ts:58 | without gamepad 0, swing, stick and left track are 0 |
| `GamepadFacts.RightPadAbsent` | hooks/useExcavatorGamepad.ts:59 | without gamepad 1, bucket, boom and right track are 0 |
| `GamepadFacts.AxisMapping` | hooks/useExcavatorGamepad.ts:16-28 | with two seven-axis gamepads each field is the filtered reading of its mapped axis |
| `GamepadFacts.ShortPadGivesStillTrack` | hooks/useExcavatorGamepad.ts:70-72 | a gamepad with fewer than seven axes gives a left track of 0 |
| `GamepadFacts.PollStaysInRange` | hooks/useExcavatorGamepad.ts:7-12 | readings in [-1, 1] give controls in [-1, 1] |
| `Gamepad.Run` | hooks/useExcavatorGamepad.ts:63-87 | before any frame the state is the starting one; after any non-empty sequence of frames it is what the last frame alone gives; nothing carries over |
| `GamepadFacts.AbsentPadsKeepNeutral` | hooks/useExcavatorGamepad.ts:43-87 | frames with neither gamepad connected keep all six axes at their starting 0 |
| `Command.MergeGear` | components/GamepadControl.tsx:78 | a present, non-empty UI gear wins; otherwise the device gear |
| `Command.MergeSpeedMode` | components/GamepadControl.tsx:98 | rabbit exactly when the device or the UI says rabbit |
| `LightBits.BitUnion` | components/GamepadControl.tsx:101 | the bitwise OR of two codes keeps every bit of each |
| `LightBits.UnionBitIff` | components/GamepadControl.tsx:101 | a bit is in the OR of two codes exactly when it is in either, so no bit appears that neither set |
| `LightBits.UnionWithNone` | components/GamepadControl.tsx:101 | OR with the empty code adds nothing |
| `Command.MergeLight` | components/GamepadControl.tsx:101 | an absent UI code leaves the device code as it is; a present one is OR-ed in |
| `Command.Merge` | components/GamepadControl.tsx:53-105 | fixed tags (excavator, rotation 0, the given time); emergency stop, parking brake, horn are device OR UI (absent = false); gear, speed mode, light by their merge rules; hydraulic lock and power enable from the device |
| `Command.Dispatch` | components/GamepadControl.tsx:45-110 | nothing is sent unless the channel exists and is open; when open exactly one message, the merged one |
| `CommandFacts.OverridesNeverMoveAxes` | components/GamepadControl.tsx:59-70 | every continuous axis is the device's, whatever the overrides |
| `CommandFacts.OverridesNeverTouchLockOrPower` | components/GamepadControl.tsx:103-104 | hydraulic lock and power enable ignore the overrides |
| `CommandFacts.SafetyFlagsAreOred` | components/GamepadControl.tsx:81-87 | each safety flag is device OR UI, an absent UI flag counting as false |
| `CommandFacts.UiEmergencyStopWins` | components/GamepadControl.tsx:81 | a UI emergency stop is sent even when the device says no |
| `CommandFacts.LightIsUnionOfSources` | components/GamepadControl.tsx:101 | the sent light code is the OR of the device code and the UI code, an absent UI code counting as 0 |
| `CommandFacts.UiWorkLightSurvives` | components/GamepadControl.tsx:101 | a UI work light (0x10) survives any device light code |
| `CommandFacts.GearPolicy` | components/GamepadControl.tsx:78 | UI `N` is sent as `N`; the gear is always the device's or the UI's; no UI gear means the device gear |
| `CommandFacts.NoOverridesSendsDevice` | components/GamepadControl.tsx:53-105 | with no overrides the message carries the device values unchanged |
| `CommandFacts.SendGuard` | components/GamepadControl.tsx:47 | no message exactly when the channel is missing or not open; when open exactly the merged message |
| `DriveBar.ResolvedLightCode` | components/controls/DriveControlBar.tsx:25 | telemetry's light code when telemetry is present, else the UI's |
| `DriveBar.ResolvedSpeedMode` | components/controls/DriveControlBar.tsx:26 | telemetry's speed mode when telemetry is present, else the UI's |
| `DriveBar.HornActive` | components/controls/DriveControlBar.tsx:30 | lit exactly when telemetry, the UI or the gamepad reports the horn |
| `DriveBar.LightButtonActive` | components/controls/DriveControlBar.tsx:39 | lit exactly when a code is present and non-zero |
| `DriveBar.SpeedButtonActive` | components/controls/DriveControlBar.tsx:48 | lit exactly when the mode is rabbit |
| `DriveBar.View` | components/controls/DriveControlBar.tsx:25-60 | the three button states are the resolved light, speed and horn predicates |
| `DriveBar.TelemetryOverridesUi` | components/controls/DriveControlBar.tsx:25-26 | with telemetry present the UI's light and speed choices never show |
| `DriveBar.NoTelemetryShowsUi` | components/controls/DriveControlBar.tsx:25-26 | without telemetry the light and speed buttons show the UI's choices |
| `DriveBar.HornIsAnySource` | components/controls/DriveControlBar.tsx:30 | any one source lights the horn; with none it is dark |
| `SafetyPanel.HydraulicLocked` | components/telemetry/SafetyIndicators.tsx:10 | locked without telemetry, else telemetry's lock flag |
| `SafetyPanel.ParkingBrakeApplied` | components/telemetry/SafetyIndicators.tsx:11 | applied without telemetry, else telemetry's brake flag |
| `SafetyPanel.Render` | components/telemetry/SafetyIndicators.tsx:13-26 | renders nothing exactly when both flags are false; otherwise the lock icon shows iff locked and the brake icon iff applied |
| `SafetyPanel.NoTelemetryShowsBoth` | components/telemetry/SafetyIndicators.tsx:10-11 | with no telemetry both icons show |
| `SafetyPanel.IconsMatchTelemetry` | components/telemetry/SafetyIndicators.tsx:13-26 | with telemetry, the panel renders iff either flag is set, shows at least one icon, and shows exactly the set flags |
| `Dashboard.GearToString` | components/telemetry/Dashboard.tsx:10-17 | the result is one of D, N, R; D iff code 1, R iff code 3, N for every other code |
| `Dashboard.View` | components/telemetry/Dashboard.tsx:20-32 | with telemetry: its gear letter, its speed, and the rabbit icon iff mode is `R` |
| `Dashboard.GearCodes` | components/telemetry/Dashboard.tsx:11-15 | 1→D, 2→N, 3→R, and 0, 4, −1 → N |
| `Dashboard.NoTelemetryView` | components/telemetry/Dashboard.tsx:20-22 | without telemetry: gear N, speed 0, no rabbit icon |
| `Dashboard.RabbitIconIff` | components/telemetry/Dashboard.tsx:32 | the rabbit icon shows exactly when telemetry reports mode `R` |
| `ConsolePage.QualityOf` | app/page.tsx:88-93 | excellent iff ping < 50, good iff 50–99, poor iff 100–199, critical iff ≥ 200 |
| `ConsolePage.QualityColor` | app/page.tsx:95-106 | green iff excellent or good, yellow iff poor, red iff critical |
| `ConsolePage.QualityMonotone` | app/page.tsx:88-93 | a larger ping never gives a better band |
| `ConsolePage.BandEdges` | app/page.tsx:88-93 | 49/50, 99/100 and 199/200 fall on either side of the band edges |
| `ConsolePage.Login` | app/page.tsx:40-44 | login sets the logged-in flag and the user name and keeps the excavator name |
| `ConsolePage.SetExcavatorName` | app/page.tsx:56-58 | the name is replaced and the login is kept |
| `ConsolePage.Logout` | app/page.tsx:46-54 | logout clears the login and both names and zeroes the readings |
| `ConsolePage.SetExcavatorNameEnables` | app/page.tsx:32 | after a name change the session is enabled exactly when logged in and the new name is non-empty |
| `ConsolePage.LogoutDisables` | app/page.tsx:32 | after logout the session is disabled |
| `ConsolePage.LoginEnables` | app/page.tsx:32 | after login the session is enabled iff an excavator name is set |
| `ConsolePage.OnConnectionState` | app/page.tsx:65-73 | any state other than connected zeroes the four readings; connected leaves the page alone |
| `ConsolePage.TempColor` | app/page.tsx:225 | red iff > 95, yellow iff in (90, 95], green iff ≤ 90 |
| `ConsolePage.BannerMatchesRedBand` | app/page.tsx:181-190 | the overheat banner shows iff connected and the temperature is in the red band; never while not connected |
| `ConsolePage.OverlayIff` | app/page.tsx:237-243 | the connection-lost overlay shows exactly when the session is enabled and the state is disconnected; never after logout |
| `ConsolePage.ResetPingGradesExcellent` | app/page.tsx:88-89 | after `disconnect()` and until a stats report resolves, the ping is 0 and graded excellent |

## Left out

- Browser and WebRTC calls: creating the peer connection, data channels, transceivers, the offer/answer exchange, applying remote candidates, the microphone request, the remote track merge and `toggleMute` (`hooks/useWebRTC.ts:155-339`, `416-428`). They appear only as the events that reach the state machine.
- Incoming signaling messages (`answer`, `candidate`, `pong`) change no modelled state and are not events of the model.
- Walking the `getStats()` report (`hooks/useWebRTC.ts:86-107`): a `Sample` carries the extracted counters, RTT and jitter as inputs.
- Numbers: JavaScript doubles are modelled as unbounded `real` (the loss ratio, RTT, jitter, axis readings) and `int` (counters, ping); `Math.round` is floor(x + ½) on reals. Floating-point rounding is not modelled; no stated property depends on it.
- Time: intervals are handles in the session record; when they fire is not modelled. The wall-clock timestamp of a command is a parameter; the 200 ms horn release, `requestAnimationFrame` and the login delay are not modelled.
- Logging, `toLocaleTimeString`, JSON serialisation and the simulated random sensor values (`app/page.tsx:76-81`).
- The data channel handle is not part of the session record; its ready state is an input of `Command.Dispatch`.
- Presentational files with no decision logic (dialogs, settings panels, login screen, glass buttons, communication bar, status indicator, connection log, hydraulic gauge, gamepad test page, layout, build config).
- PeerSession.OnSocketOpened: creates the peer at once; the awaited microphone request and offer creation are collapsed into the open event. The single offer, sent once ICE gathering completes, is the separate `GatheringComplete` event.
- PeerSession.Step: socket and ICE events are applied to the current session, whichever socket or peer raised them. A close event from an earlier, already replaced socket is not told apart.
- Command.Merge: takes the controls record with every field defined. In this revision the input hook fills only the six excavator axes, so at run time the other fields are `undefined`. The model does not follow what the merge then sends.
- DriveBar.ResolvedLightCode: telemetry light codes are 32-bit values; a telemetry frame that is present but lacks the field (where `??` would fall back to the UI) is not modelled, because the telemetry type is not part of this revision's source.
- Schema: the telemetry frame's type is not part of this revision's source. It is declared here with only the fields the display components read.
