# PollenSense core in Dafny

PollenSense is a browser prototype for a wearable pollen sensor. This project
models the three parts of it whose behaviour can be stated and proved:

- **Pollen display** (`pollen_display.dfy`, module `PollenDisplay`): a reading,
  or no reading, is classified as low (at most 30), moderate (31 to 60) or high
  (above 60). Each category has its own recommendation text and colour style.
  No reading gets no category, the empty text and the slate default style.
- **Bluetooth connector** (`bluetooth_connector.dfy`, module
  `BluetoothConnector`; properties in `connector_properties.dfy`, module
  `ConnectorProperties`): the component is a state machine. A `Snapshot` holds
  the component state (`isConnected`, `deviceName`, `isBusy`, `error`), the
  simulation counter, the abort ref, whether a value handler and a disconnect
  listener are registered, and what was last reported to the parent (level,
  connected flag, device name). Every prop change, timer callback, platform
  callback and click is an `Event`, and `Step` gives the next state. The class
  `Connector` holds the same state in fields and has one method per event.
  Each method is proved to agree with `Step` and to keep the invariant `Inv`.
  The Web Bluetooth calls are parameters: the `Attempt` value carries what the
  device picker and the four awaited platform calls returned.
- **Mock auth store** (`auth.dfy`, module `Auth`): a class over the local
  storage map with a fixed "window present" flag. `IsAuthenticated`, `Login`
  and `Logout` read and update the pure functions `Authenticated`, `LoggedIn`
  and `LoggedOut`.

`wrappers.dfy` holds the `Option` type used for the source's nullable values.

What the code does, kept in the model:

- `disconnect` calls `abort()` on a controller that is never passed to the
  platform, so the GATT link and the value handler stay in place. A notification
  after a manual disconnect still reports a level while the parent has been told
  the device is disconnected (`NotificationAfterManualDisconnect`). A remote
  disconnect does detach the handler (`NotificationAfterRemoteDisconnect`).
- A failed connect keeps the device name the component shows once the picker
  has returned a device. The name reported to the parent on success is the
  device's own name or none. The name the component shows falls back to
  "Pollen Sensor".
- Turning simulation off does not clear the component's `deviceName`. It
  reports no device and no level.
- An empty notification value makes `getUint8(0)` throw, so nothing is reported.

Three more behaviours of the code, kept in the model:

- A manual disconnect does not cancel an attempt in flight: the abort reaches
  nothing, and an attempt that is pending settles as usual.
- Simulation runs beside the real connection rather than instead of it. An
  existing value handler stays registered while simulating, and an attempt that
  is pending when simulation turns on still settles.
- A failed attempt leaves the component not connected and not busy, and a
  picked device's name stays shown on it.

## Model

| member | source | states |
|---|---|---|
| `PollenDisplay.GetRiskCategory` | src/components/PollenDisplay.tsx:8-13 | no reading gives no category and every integer reading gets one; low exactly for readings up to 30, moderate exactly for 31..60, high exactly above 60 |
| `PollenDisplay.RiskMonotone` | src/components/PollenDisplay.tsx:8-13 | a higher reading never gets a less severe category |
| `PollenDisplay.GetRecommendation` | src/components/PollenDisplay.tsx:15-20 | the text is non-empty exactly when there is a category; high gets the "stay indoors" text |
| `PollenDisplay.RecommendationsDistinct` | src/components/PollenDisplay.tsx:15-20 | different categories, "none" included, never share a text |
| `PollenDisplay.CategoryStyles` | src/components/PollenDisplay.tsx:22-33 | the slate default style is used exactly when there is no category |
| `PollenDisplay.StylesDistinct` | src/components/PollenDisplay.tsx:22-33 | the low, moderate, high and default styles are pairwise distinct |
| `PollenDisplay.DisplayForReading` | src/components/PollenDisplay.tsx:39-49 | for the panel's reading, advice is shown exactly when a reading exists, and the default style is used exactly when it does not |
| `BluetoothConnector.Clamp` | src/components/BluetoothConnector.tsx:81 | the result is in 0..100, equals its input inside that range, and is 100 above it and 0 below it |
| `BluetoothConnector.AfterToggle` | src/components/BluetoothConnector.tsx:30-46 | turning simulation on restarts the counter at 12 and reports connected with the simulated device's name; turning it off reports disconnected, no name and no level; the same value again changes nothing; the real-device part is untouched; the invariant is kept |
| `BluetoothConnector.AfterTick` | src/components/BluetoothConnector.tsx:33-36 | with simulation on, the counter becomes (level + 7) mod 101, stays in 0..100 and is reported, and nothing else changes; without simulation nothing happens |
| `BluetoothConnector.AfterConnectCall` | src/components/BluetoothConnector.tsx:60-64 | a no-op without Bluetooth or in simulation; otherwise the error is cleared, the component is busy and a controller is stored |
| `BluetoothConnector.FirstRejection` | src/components/BluetoothConnector.tsx:73-84 | none exactly when every awaited call resolved; otherwise the message of a rejected call that every earlier call passed |
| `BluetoothConnector.AttemptError` | src/components/BluetoothConnector.tsx:96-97 | no error exactly when a device was picked and every call resolved; a rejected picker shows its message, or the default text when it has none; otherwise the error is the message of the first rejected call (every earlier one resolved), or the default text when it has none |
| `BluetoothConnector.AfterSettle` | src/components/BluetoothConnector.tsx:65-103 | busy ends; a picked device's name (or "Pollen Sensor") is shown; on failure the error is set, disconnected and no level or name are reported; on success the handler and listener are registered and connected is reported with the device's own name; with no pending attempt nothing happens |
| `BluetoothConnector.AfterValue` | src/components/BluetoothConnector.tsx:77-82 | with a handler registered, the first byte is reported clamped, and unchanged when at most 100; no value, an empty value or no handler reports nothing |
| `BluetoothConnector.AfterGattDisconnect` | src/components/BluetoothConnector.tsx:90-95 | with a linked device: disconnected, no name and no level are reported, the value handler and the link are removed, and nothing else changes (a shown error survives); otherwise nothing happens |
| `BluetoothConnector.AfterDisconnect` | src/components/BluetoothConnector.tsx:50-57 | from any state: not connected, disconnected, no name and no level reported, and nothing else changes: handler, link, shown name, error and simulation counter stay |
| `BluetoothConnector.ButtonAction` | src/components/BluetoothConnector.tsx:106-128 | the click is ignored exactly in simulation, without Bluetooth or while busy; otherwise it disconnects exactly when connected and connects exactly when not |
| `BluetoothConnector.Step` | src/components/BluetoothConnector.tsx:29-104 | every event keeps the invariant and the Bluetooth-support flag |
| `BluetoothConnector.ChainRejection` | src/components/BluetoothConnector.tsx:73-84 | for the four-call chain, the earliest rejection decides the outcome |
| `BluetoothConnector.Connector.constructor` | src/components/BluetoothConnector.tsx:23-27 | a mounted component is not connected, not busy, has no error and has reported nothing |
| `BluetoothConnector.Connector.SetSimulation` | src/components/BluetoothConnector.tsx:30-46 | the new state is the toggle's transition of the old one; the invariant is kept |
| `BluetoothConnector.Connector.Tick` | src/components/BluetoothConnector.tsx:33-36 | the new state is the tick's transition of the old one |
| `BluetoothConnector.Connector.Connect` | src/components/BluetoothConnector.tsx:59-64 | the new state is the connect prologue's transition |
| `BluetoothConnector.Connector.Settle` | src/components/BluetoothConnector.tsx:65-103 | walking the chain step by step yields the settle transition of the old state |
| `BluetoothConnector.Connector.HandleValue` | src/components/BluetoothConnector.tsx:77-82 | the new state is the notification's transition |
| `BluetoothConnector.Connector.OnGattServerDisconnected` | src/components/BluetoothConnector.tsx:90-95 | the new state is the remote disconnect's transition |
| `BluetoothConnector.Connector.Disconnect` | src/components/BluetoothConnector.tsx:50-57 | the new state is the manual disconnect's transition |
| `BluetoothConnector.Connector.Click` | src/components/BluetoothConnector.tsx:126-128 | the click dispatches to `Disconnect` or `Connect`, or does nothing when disabled |
| `ConnectorProperties.RunPreservesInv` | src/components/BluetoothConnector.tsx:29-104 | any sequence of events keeps the invariant |
| `ConnectorProperties.Reachable` | src/components/BluetoothConnector.tsx:29-104 | from mount, whatever happens, every reported level is in 0..100, the reported connected flag equals `isConnected`, and a reported name is the shown name |
| `ConnectorProperties.TicksClosedForm` | src/components/BluetoothConnector.tsx:32-35 | after k ticks the counter is (start + 7k) mod 101, it has been reported if k > 0, and nothing else changed |
| `ConnectorProperties.SimulationPeriod` | src/components/BluetoothConnector.tsx:34 | the counter repeats after 101 ticks |
| `ConnectorProperties.OffStopsTicks` | src/components/BluetoothConnector.tsx:40-41 | without simulation, timer events change nothing |
| `ConnectorProperties.RestartsFromStart` | src/components/BluetoothConnector.tsx:31-45 | from any state, off then on then k ticks gives counter (12 + 7k) mod 101, reported, with the simulated device connected |
| `ConnectorProperties.OffThenTicks` | src/components/BluetoothConnector.tsx:40-45 | after turning simulation off, disconnected, no name and no level stay reported however many timer events follow |
| `ConnectorProperties.ConnectAttempt` | src/components/BluetoothConnector.tsx:59-104 | after a full attempt nothing is pending; the error is the first failure's (or none); connected exactly when every call resolved; a failure clears the level and name |
| `ConnectorProperties.ButtonDuringAttempt` | src/components/BluetoothConnector.tsx:126-128 | a connect click makes the button ignore clicks until the attempt settles; then it offers disconnect on success and connect on failure |
| `ConnectorProperties.ButtonDisconnects` | src/components/BluetoothConnector.tsx:126-128 | a click on a connected, idle button reports disconnected with no level and offers connect again |
| `ConnectorProperties.NotificationAfterManualDisconnect` | src/components/BluetoothConnector.tsx:50-57 | after connecting and disconnecting manually, a notification still reports its clamped byte while disconnected is reported |
| `ConnectorProperties.NotificationAfterRemoteDisconnect` | src/components/BluetoothConnector.tsx:90-95 | after a remote disconnect, a notification reports nothing: the handler is gone |
| `ConnectorProperties.TickWithRerunOnce` | src/components/BluetoothConnector.tsx:30-46 | a tick followed by a re-run of the effect leaves the counter at 12 with no level reported and the simulated device connected |
| `ConnectorProperties.CounterStuckWhenRerun` | src/components/BluetoothConnector.tsx:30-46 | when every tick is followed by an effect re-run, the counter is back at 12 with no level after any number of rounds, and the next tick reports 19 again |
| `Auth.LoggedIn` | src/lib/auth.ts:9-12 | in a browser the flag is then set, the key holds "true" and every other key is unchanged; without a window the store is unchanged and nothing is authenticated |
| `Auth.LoggedOut` | src/lib/auth.ts:14-17 | the user is then not authenticated; in a browser the key is gone and every other key is unchanged; without a window the store is unchanged |
| `Auth.Authenticated` | src/lib/auth.ts:2-7 | false without a window; in a browser, true exactly when the value stored under "pollensense_auth" is "true" |
| `Auth.LoginLogoutIdempotent` | src/lib/auth.ts:9-17 | logging in twice, or out twice, gives the same store as doing it once |
| `Auth.LogoutUndoesLogin` | src/lib/auth.ts:9-17 | on a store without the key, logout after login gives back the original store |
| `Auth.AuthStore.IsAuthenticated` | src/lib/auth.ts:4-7 | reads only: false without a window, otherwise true exactly when the stored value is "true" |
| `Auth.AuthStore.Login` | src/lib/auth.ts:9-12 | the store becomes the login's result, and the user is authenticated exactly when there is a window |
| `Auth.AuthStore.Logout` | src/lib/auth.ts:14-17 | the store becomes the logout's result, and the user is not authenticated |

## Left out

- Web Bluetooth itself (`requestDevice` with its "Pollen" name filter and
  optional service, `gatt.connect`, `getPrimaryService`, `getCharacteristic`,
  `startNotifications`, listener plumbing): each call is only its outcome, a
  value or a rejection with an optional message, carried by `Attempt`.
- The 1.2 s interval period: a tick is an event, and its timing is not modelled.
- Interleaving inside `connect`: its part after the first `await` is one
  atomic event (`AttemptSettled`), so other events can fall only before or after
  the whole chain. A second `connect` started while one is pending shares the
  one pending slot. Only the button starts `connect`, and it is disabled while
  busy.
- `AbortController`: the stored controller is a flag; it has no effect, as in
  the code.
- Re-running of the simulation effect when the `onLevel` or
  `onConnectionChange` callbacks change identity: in the class and in `Step`
  the effect runs only when the `simulation` prop changes. The page passes a new
  `onConnectionChange` on every render (src/app/page.tsx:42-45), so each
  reported level re-runs the effect from 12 and reports no level. Read this way,
  the app only ever shows 19 and then nothing. `TicksClosedForm`,
  `SimulationPeriod` and `RestartsFromStart` hold only for a parent whose
  callbacks keep their identity. `CounterStuckWhenRerun` states what the page
  gets instead (see "## Findings").
- Several stale value handlers left by repeated connects after manual
  disconnects are one flag. A remote disconnect clears that flag.
- `onConnectionChange` is optional in the code; the model always records its
  arguments, as the only caller passes one.
- The empty `catch` around `abort()` in `disconnect`: nothing in it can throw in
  the model.
- Storage exceptions (quota, blocked storage) in `login`/`logout`.
- Rendering: JSX, animation and class lists; the status panel, the layout and
  the page wiring; the login form with its delay. The login form only calls
  `login()`.
- Battery decay and the JSON/AQI export: they are not part of these files.
- Readings are integers; JavaScript number generality (fractions, NaN) is not
  modelled. The readings themselves come from `getUint8` and an integer counter.

## Findings

| source | as written | input that shows it | evidently intended | confidence | as-written member | corrected member |
|---|---|---|---|---|---|---|
| src/components/BluetoothConnector.tsx:46 | the simulation effect depends on `onConnectionChange`, which the page recreates on every render (src/app/page.tsx:42-45); each tick's report re-renders the page, so the effect's cleanup reports no level and its set-up restarts the counter at 12 | simulation on, then one tick: 19 is reported, the effect re-runs, and the level goes back to none with the counter at 12 | the counter advances by 7 modulo 101 on every tick: 19, 26, 33, … | not executed; medium (follows from React's effect dependency rule, read from the code) | `ConnectorProperties.CounterStuckWhenRerun` | `ConnectorProperties.TicksClosedForm` |
