# SecureGate IoT dashboard: a Dafny model of its state rules

SecureGate is a browser dashboard for a simulated IoT gateway. It shows a
device inventory, a telemetry snapshot with a chart history, and a security
journal. Its behaviour outside rendering is a handful of state updates held by
the top-level `App` component, plus the security panel's "simulate attack"
action. This project models those updates and proves what they promise:

- **Telemetry tick** (`Telemetry`): a clamped random walk of cpu, temperature
  and the two network rates, with memory held constant. Each `Math.random()`
  draw is a parameter `u` in [0, 1), and each delta is computed from it exactly
  as the code does (`u * 10 - 5` and so on).
- **Stats history** (`StatsHistory`): the chart window of at most 20 labelled
  samples, oldest first. One element is shifted off the head when an append
  takes it past 20.
- **Device toggle** (`Devices`): an id-keyed map over the inventory.
- **Security journal** (`SecurityLogStore`): newest first, grown only at the head.
- **Session state** (`App.GatewaySession`): a class with the four state fields.
  Its methods replace a field with the result of the matching pure updater.
  `Valid()` says that ids are unique, the snapshot is in range, and the history
  stays within capacity with every sample in range.
- **Simulated attack** (`SecurityLogPanel`): the four-row template table, the
  entry built from two draws, an id and a timestamp, and the single `addLog`
  call.
- **Decimal text** (`Numerals`): what the template literal `${n}` produces for
  the last octet of the simulated source address, and its parser.

Injected inputs: the `Math.random()` draws (each a real in [0, 1), `Random.IsDraw`), the clock's `toISOString()` and
`toLocaleTimeString()` text, and the generated log id are all parameters.

Two behaviours of the code worth noting:
- The toggle brings a device in WARNING or MAINTENANCE status ONLINE
  (`App.tsx:72`).
- The history updater shifts at most one element per append (`App.tsx:64`);
  from a window within capacity this keeps exactly the newest 20
  (`StatsHistory.RecordAllKeepsNewest`).

## Model

| member | source | states |
|---|---|---|
| `Telemetry.Clamp` | App.tsx:42-43 | `Math.min(hi, Math.max(lo, x))` lies in [lo, hi]; it is `x` when `x` is inside, and the nearer bound otherwise |
| `Telemetry.Next` | App.tsx:41-54 | from any previous snapshot, the next one has cpu in [0, 100], an integer temp in [30, 90] and non-negative network rates; memory is unchanged |
| `Telemetry.NextIsSmallStep` | App.tsx:42-52 | from an in-range snapshot, cpu moves by at most 5, temp by -2 to +1, network in by at most 2.5 and network out by at most 1 |
| `StatsHistory.Record` | App.tsx:62-66 | the new sample is last; a window within 20 stays within 20; below 20 the result is `prev + [sample]`, at 20 or more it is `prev[1..] + [sample]` (oldest dropped, order kept) |
| `StatsHistory.RecordAllKeepsNewest` | App.tsx:61-67 | recording any run of samples into a window within capacity leaves the newest 20 of old window plus run, in recording order |
| `StatsHistory.FromEmpty` | App.tsx:36-67 | from the empty initial history, n recorded samples leave the last min(n, 20) of them, in order (25 appends leave the last 20) |
| `Devices.Flipped` | App.tsx:72 | ONLINE becomes OFFLINE, and every other status becomes ONLINE; the status always changes |
| `Devices.FlippedTwice` | App.tsx:72 | toggling twice restores a status if and only if it was ONLINE or OFFLINE |
| `Devices.Toggle` | App.tsx:69-76 | length, order and every field but status are kept; a status changes exactly where the id matches, and there ONLINE goes OFFLINE and anything else goes ONLINE |
| `Devices.ToggleUnknownId` | App.tsx:70-75 | an id no device has leaves the list identical |
| `Devices.ToggleKeepsUniqueIds` | App.tsx:70-75 | toggling keeps ids unique |
| `Devices.ToggleChangesOneDevice` | App.tsx:70-75 | with unique ids, only the device with that id changes, and only in its status |
| `Devices.ToggleTwice` | App.tsx:70-75 | toggling the same id twice restores the list when the matching devices are ONLINE or OFFLINE |
| `SecurityLogStore.AddLog` | App.tsx:78-80 | the journal grows by exactly one, the new entry is the head, and the older entries follow unchanged and in order |
| `SecurityLogStore.AddLogsNewestFirst` | App.tsx:79 | a run of added entries ends up in front of the old journal in reverse insertion order (newest first); the old journal is untouched |
| `SecurityLogStore.TwoAdds` | App.tsx:79 | adding `e` and then `f` gives `[f, e]` in front of the old journal |
| `App.SeedIsValid` | App.tsx:9-14 | the seed devices have unique ids and the seed snapshot (App.tsx:28-34) is in range |
| `App.GatewaySession.constructor` | App.tsx:24-36 | the first render holds the seed devices, the seed journal, the seed snapshot and an empty history, and satisfies the session invariant |
| `App.GatewaySession.Tick` | App.tsx:40-55 | the snapshot becomes `Telemetry.Next` of the old one; nothing else changes; the invariant is kept |
| `App.GatewaySession.RecordHistory` | App.tsx:61-67 | the history becomes `Record` of the old history and the labelled current snapshot; nothing else changes; it stays within 20 samples, all in range |
| `App.GatewaySession.Step` | App.tsx:39-67 | one timer period: the snapshot ticks, and the history gains the new snapshot as its last sample |
| `App.GatewaySession.ToggleDeviceStatus` | App.tsx:69-76 | the inventory becomes `Toggle` of the old one; other fields are unchanged; ids stay unique |
| `App.GatewaySession.AddLog` | App.tsx:78-80 | the journal becomes the new entry followed by the old journal; other fields are unchanged |
| `Numerals.Decimal` | components/SecurityLog.tsx:27 | the decimal text of a number is non-empty and all digits, with a leading '0' only for 0 |
| `Numerals.ParseDecimalOfDecimal` | components/SecurityLog.tsx:27 | reading back the decimal text of n gives n |
| `Numerals.DecimalOfParseDecimal` | components/SecurityLog.tsx:27 | canonical digit text is the decimal text of the number it denotes |
| `SecurityLogPanel.Pick` | components/SecurityLog.tsx:22 | `Math.floor(u * n)` for a draw u in [0, 1) is an index below n |
| `SecurityLogPanel.AttackEntry` | components/SecurityLog.tsx:16-31 | event and protocol come from one template row; the protocol is one of "SSH (22)", "TCP (Various)", "HTTP (80)", "MQTT (1883)"; severity is WARNING; the source address is "192.168.1." followed by the decimal text of an octet in [0, 254]; id and timestamp are the given ones |
| `SecurityLogPanel.LastOctet` | components/SecurityLog.tsx:27 | an address that passes the attack-address test is the prefix followed by the decimal text of an octet below 255 |
| `SecurityLogPanel.IsAttackSourceIpExactly` | components/SecurityLog.tsx:27 | the prefix followed by the text of n passes the test if and only if n < 255 |
| `SecurityLogPanel.AttackSourceIpValid` | components/SecurityLog.tsx:27 | every simulated source address passes the test, and its octet is the drawn one |
| `SecurityLogPanel.HandleSimulateAttack` | components/SecurityLog.tsx:15-33 | one `addLog` of the built entry: the journal grows by one with the entry at index 0; devices, snapshot and history are unchanged |
| `SecurityLogPanel.SeedScenario` | App.tsx:9-20 | from the seed data, toggling device "4" leaves four devices, all ONLINE, and one simulated attack leaves four journal entries with the attack first |

## Left out

- Telemetry.Next: the snapshot values are exact reals. The `toFixed(1)` / `parseFloat` rounding to one decimal (`App.tsx:48,51,52`) is not modelled, so the one-decimal format is not claimed.
- SecurityLogPanel.AttackEntry: the contract says that event and protocol come from the same template row, but not which row; the row is `Math.floor(u * 4)`, as `Pick` states.
- The id from `Math.random().toString(36).substr(2, 9)` is a parameter, and ids are not claimed to be unique, since nothing in the code guarantees it.
- Timers: `setInterval`/`clearInterval` scheduling and its teardown. `Step` stands for one timer period, and `RecordHistory` alone for the history effect that runs on the first render.
- The AI advisory client (`services/geminiService.ts`), `handleAnalyze` and the `AiAnalysisResult` record: this is an asynchronous call into an external generation service with canned fallbacks, and is not part of this model.
- Rendering: all JSX, the active-tab state, the colour thresholds and the severity badges are presentation only.
- Clock text (`toISOString`, `toLocaleTimeString`, `Date.now()` offsets of the seed journal) is a string parameter; no format is claimed for it.
