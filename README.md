# Ground-station session and settings state, in Dafny

This project models the state-keeping core of a ground-station control panel
for flight boards that talk over a serial link. "Entangler" boards carry a
LoRa radio. "Warp" boards carry a parachute deployment controller. The model
covers two sides.

- The host process, written in Rust. It holds the serial session: the
  connected port, the baud rate, and a transcript of received lines. It also
  holds a legacy board-settings record, the variant device settings, and the
  selected board variant. The model covers the commands over all of these,
  and one pass of the background loop that reads the port and appends to
  the transcript.
- The front end, written in TypeScript. The model covers the LoRa and
  deployment option panels, which edit the shared device settings one field
  at a time. It covers the header's port selector, and the serial-monitor
  page with its optimistic echo of sent lines.

One Dafny module and one file model each source file:

| file | module | source |
|---|---|---|
| `common.dfy` | `Common` | `Option`, `Result`, `u8`, `u32` |
| `lines.dfy` | `Lines` | the line split shared by the monitor loop and the monitor page |
| `settings.dfy` | `Settings` | `src-tauri/src/settings.rs` |
| `serial.dfy` | `Serial` | `src-tauri/src/serial.rs` |
| `serial_settings.dfy` | `SerialSettingsCommands` | `src-tauri/src/settings/serial.rs` |
| `device.dfy` | `Device` | `src-tauri/src/settings/device.rs` |
| `board.dfy` | `Board` | `src-tauri/src/board.rs` |
| `options.dfy` | `Options` | `src/utils/options.tsx`, with the store of `src/context/SettingsProvider.tsx` |
| `port_selector.dfy` | `PortSelector` | `src/utils/serial.tsx` |
| `serial_monitor.dfy` | `SerialMonitor` | `src/routes/serial-monitor.tsx` |

How the model is built:

- State that the source updates in place is a class. Its methods say the
  whole new state and what stays unchanged: `Serial.SerialData`,
  `Settings.LegacySettings`, `Device.DeviceState`, `Board.BoardState`,
  `Options.SettingsStore`, `PortSelector.SerialSelector`,
  `SerialMonitor.SerialStream` and `SerialMonitor.SerialSelector`.
- Each class starts from the values of `AppData::default()`, or from the
  component's `useState` initial values.
- A command that only reads state has no `modifies` clause, so it provably
  changes nothing.
- Device and serial I/O are parameters. These are the port list, the outcome
  of opening a port, the outcome of a write, the outcome of a read, and the
  host's reply to a front-end request. Each command is specified for every
  answer it may get.
- The source declares `LoRaSettings`, `DeploymentSettings` and
  `SerialSettings` twice, identically. The model defines each of them once,
  in `Settings`.
- The host's application state declares `board_settings` as a plain
  `BoardSettings` (`src-tauri/src/lib.rs:25`). But `device.rs` treats it as
  `Option<DeviceSettings>`. The model keeps the two as separate state classes
  (`Settings.LegacySettings` and `Device.DeviceState`). The device commands
  read the connected port from the `Serial.SerialData` they are given.
- The commands of `src-tauri/src/settings/device.rs` and
  `src-tauri/src/settings/serial.rs` are modelled as written, but the
  application cannot currently reach them. `settings.rs` declares neither
  file as a module, so neither is compiled. `src-tauri/src/lib.rs:44-64`
  registers none of their commands, and no front-end file invokes them.
- The monitor loop splits on every character whose low byte is a line feed.
  The source compares `b as u8`, which keeps only the low 8 bits of the code
  point. The model states this as `c as int % 256 == 10`
  (`Serial.IsLineBreak`). The monitor page splits on `'\n'` exactly
  (`SerialMonitor.IsNewline`). `Lines.Split` serves both, through its
  separator parameter.

Where the design intent and the code differ, the model follows the code:

- The transcript is not strictly append-only. `clear_serial_content` resets
  it to one empty line.
- The monitor page's send box only echoes the line locally. It calls nothing
  on the host.
- The port selector keeps a boolean `portConnected`, not a four-state
  session. It starts out `true`, before any port has been chosen.
- `download_board_settings` and `upload_board_settings` are stubs that
  always fail. `download_device_settings` stores a default Entangler instead
  of reading the board.
- The transcript is not line-oriented across reads. The monitor loop splits
  each chunk it reads on its own (`src-tauri/src/serial.rs:152-170`). A line
  that arrives in two reads becomes two transcript entries. A chunk that
  ends in a line feed also appends an empty entry. `Serial.SerialData.MonitorStep`
  states both, through `Lines.Split`.
- `send_serial_message` calls the port's `write`, not `write_all`, and
  ignores the count it returns. A write that takes only a prefix of the line
  is still answered `Ok("")` (the `ShortWrite` outcome).

## Model

| member | source | states |
|---|---|---|
| `Lines.Split` | src-tauri/src/serial.rs:160-170 | a text with k separators splits into exactly k + 1 pieces, empty ones included; no piece contains a separator |
| `Lines.SplitSepFree` | src/routes/serial-monitor.tsx:68 | a text without a separator is a single line |
| `Lines.SplitAtSep` | src/routes/serial-monitor.tsx:47-68 | splitting `a + sep + b` gives the lines of `a` followed by the lines of `b`, so earlier lines are never disturbed |
| `Lines.JoinSplit` | src-tauri/src/serial.rs:160 | splitting loses nothing: joining the pieces with the line feed restores the text when every separator in it is a line feed |
| `Lines.SplitJoin` | src-tauri/src/serial.rs:160 | joining separator-free lines and splitting again gives the same lines |
| `Settings.LegacySettings.constructor` | src-tauri/src/settings.rs:6-10 | the initial board settings are the derived defaults: every LoRa number 0, both deployment flags false, both deployment quantities 0 |
| `Settings.LegacySettings.GetBoardSettings` | src-tauri/src/settings.rs:12-18 | always succeeds with the stored record, unchanged |
| `Settings.LegacySettings.UploadBoardSettings` | src-tauri/src/settings.rs:20-27 | always fails with "Upload not implemented" and cannot change the state |
| `Settings.LegacySettings.DownloadBoardSettings` | src-tauri/src/settings.rs:29-36 | always fails with "Download not implemented" and cannot change the state |
| `Settings.LegacySettings.SetLoraFrequency` | src-tauri/src/settings.rs:47-55 | only `lora.frequency` changes; every other LoRa field and the whole deployment record keep their values; the reply is `Ok("")` |
| `Settings.LegacySettings.SetLoraBandwidth` | src-tauri/src/settings.rs:57-63 | succeeds with "" and cannot change the state |
| `Settings.LegacySettings.SetLoraSpreadingFactor` | src-tauri/src/settings.rs:65-71 | succeeds with "" and cannot change the state |
| `Settings.LegacySettings.SetLoraSyncWord` | src-tauri/src/settings.rs:73-79 | succeeds with "" and cannot change the state |
| `Serial.ConnectFailure` | src-tauri/src/serial.rs:56 | the error text of a failed open begins "Failed to connect to " followed by the requested port |
| `Serial.UsbPortNames` | src-tauri/src/serial.rs:20-31 | the offered names are never more than the enumerated ports |
| `Serial.UsbPortNamesInOrder` | src-tauri/src/serial.rs:23-27 | the names keep the enumeration order: a lone port gives its name exactly when it is a USB port, and the names of a concatenation are the names of its parts, in order |
| `Serial.UsbPortNamesExact` | src-tauri/src/serial.rs:23-27 | a name is offered exactly when some enumerated port of USB type carries it |
| `Serial.GetPorts` | src-tauri/src/serial.rs:18-32 | the loop collects the USB ports' names in order; an enumeration failure gives "Error reading ports" |
| `Serial.SerialData.constructor` | src-tauri/src/serial.rs:10-16 | baud rate 0, empty transcript, no port connected |
| `Serial.SerialData.SetPort` | src-tauri/src/serial.rs:43-58 | on success the port is connected at the stored baud rate and the reply is its reported name or "Unknown"; on failure no port is connected, never the old one, and the error names the requested port; settings and transcript unchanged |
| `Serial.SerialData.SetBaudRate` | src-tauri/src/serial.rs:60-86 | the rate is always stored; with no port, or a port that reports no name, the reply is `Ok("")` and the connection is left as it was; otherwise the port is reopened under its name at the new rate and a failure leaves no port |
| `Serial.SerialData.GetActivePort` | src-tauri/src/serial.rs:88-96 | never fails or changes state; replies with the port's reported name, or "" when no port or no name |
| `Serial.SerialData.SendSerialMessage` | src-tauri/src/serial.rs:98-125 | without a port: "No port connected" and nothing written; with one: the message plus one line feed is handed to the port's write; a full or a short write is answered `Ok("")`, and a write error is reported with the text sent; the transcript cannot change |
| `Serial.SerialData.GetSerialContent` | src-tauri/src/serial.rs:127-133 | always succeeds with the transcript, unchanged |
| `Serial.SerialData.ClearSerialContent` | src-tauri/src/serial.rs:135-140 | the transcript becomes exactly one empty line, not the empty sequence; settings and port unchanged |
| `Serial.SerialData.PushLines` | src-tauri/src/serial.rs:160-170 | the pieces of the chunk are pushed in order; the old transcript is a prefix of the new one |
| `Serial.SerialData.MonitorStep` | src-tauri/src/serial.rs:150-182 | with a port: a read chunk appends its split pieces and emits one event per piece; a broken pipe drops the port and emits a disconnect; a timeout or other error changes nothing; without a port nothing happens |
| `SerialSettingsCommands.GetSerialSettings` | src-tauri/src/settings/serial.rs:10-16 | always succeeds with the stored link settings |
| `SerialSettingsCommands.SetSerialSettings` | src-tauri/src/settings/serial.rs:18-26 | always succeeds and replaces the settings wholesale; transcript and port untouched |
| `SerialSettingsCommands.SetThenGetSerialSettings` | src-tauri/src/settings/serial.rs:10-26 | a get after a set returns exactly the value set |
| `Board.Capabilities` | src-tauri/src/board.rs:20-34 | the Default board has no capabilities and every other board has exactly two, GPS among them |
| `Board.CapabilitiesExclusive` | src-tauri/src/board.rs:20-34 | no variant has both LoRa and ejection; GPS exactly on the non-Default variants; LoRa only on Entangler; ejection only on Warp |
| `Board.BoardVariants` | src-tauri/src/board.rs:42-49 | the listed variants are pairwise distinct |
| `Board.BoardVariantsComplete` | src-tauri/src/board.rs:42-49 | every variant is listed |
| `Board.BoardState.constructor` | src-tauri/src/lib.rs:22-27 | no variant selected initially |
| `Board.BoardState.SetBoardVariant` | src-tauri/src/board.rs:51-55 | the register holds the given variant |
| `Board.BoardState.GetBoardVariant` | src-tauri/src/board.rs:57-67 | the selected variant, or "No selected board" when none; never changes state |
| `Board.BoardState.SetThenGetBoardVariant` | src-tauri/src/board.rs:51-67 | a get after a set returns the variant set |
| `Device.DeviceVariants` | src-tauri/src/settings/device.rs:81-87 | two instances, an Entangler then a Warp, each the variant's default: every LoRa number of the Entangler is 0, both Warp flags are false and both its quantities are 0 |
| `Device.VariantFromName` | src-tauri/src/settings/device.rs:95-99 | an accepted tag yields the variant with that tag; any other tag yields an error naming it |
| `Device.VariantNamesRoundTrip` | src-tauri/src/settings/device.rs:81-101 | a tag is accepted exactly when some listed variant has it, and selecting a listed variant's tag gives back that very instance |
| `Device.DeviceState.constructor` | src-tauri/src/lib.rs:22-27 | no device settings initially |
| `Device.DeviceState.GetDeviceSettings` | src-tauri/src/settings/device.rs:39-48 | the stored settings, or "No board selected" when none; never changes state |
| `Device.DeviceState.SetDeviceSettings` | src-tauri/src/settings/device.rs:50-54 | the stored value is replaced wholesale |
| `Device.DeviceState.SetThenGetDeviceSettings` | src-tauri/src/settings/device.rs:39-54 | a get after a set returns exactly the value set |
| `Device.DeviceState.UploadDeviceSettings` | src-tauri/src/settings/device.rs:56-66 | never succeeds and cannot change state; "No device connected" without a port, else "Upload not implemented" |
| `Device.DeviceState.DownloadDeviceSettings` | src-tauri/src/settings/device.rs:68-79 | without a port it fails and leaves the state unchanged; with one it stores a default Entangler and returns exactly what it stored |
| `Device.DeviceState.SetDeviceVariant` | src-tauri/src/settings/device.rs:89-102 | a known tag stores that variant's default instance; an unknown tag is an error and the state is unchanged |
| `Options.FromHost` | src-tauri/src/settings/device.rs:5-10 | the front end's form of host settings is well-shaped, tagged with the variant name, and carries `lora` exactly for an Entangler and `deployment` exactly for a Warp |
| `Options.WithLoraField` | src/utils/options.tsx:22-25 | the edited LoRa key takes the value and every other key keeps its own |
| `Options.WithDeploymentField` | src/utils/options.tsx:160-163 | the edited deployment key takes the value and every other key keeps its own |
| `Options.LoraPanel` | src/utils/options.tsx:9-14 | the panel shows the LoRa record exactly when settings exist and carry `lora`, else "Failed to load LoRa settings." |
| `Options.DeploymentPanel` | src/utils/options.tsx:144-149 | the panel shows the deployment record exactly when settings exist and carry `deployment`, else "Failed to load Deployment settings." |
| `Options.UpdateLoRa` | src/utils/options.tsx:16-30 | without a setter, settings or `lora` key it is a no-op; otherwise the tag is kept, `data` holds only the edited `lora` |
| `Options.UpdateDeployment` | src/utils/options.tsx:151-168 | without a setter, settings or `deployment` key it is a no-op; otherwise the tag is kept, `data` holds only the edited `deployment` |
| `Options.UpdatesKeepShape` | src/utils/options.tsx:16-30 | on well-shaped settings an edit keeps the shape and tag; a LoRa edit leaves Warp settings untouched and a deployment edit leaves Entangler settings untouched |
| `Options.UpdatesIdempotent` | src/utils/options.tsx:19-26 | applying the same edit twice gives the same settings as applying it once |
| `Options.FrequencyEditMatchesHost` | src/utils/options.tsx:19-26 | a frequency edit on the received form of an Entangler equals the received form of the host record with that field replaced |
| `Options.OfferedDomains` | src/utils/options.tsx:75-132 | offered spreading factors are exactly 7..12, coding rates exactly 5..8, bandwidths lie in 7800..500000 and increase |
| `Options.SettingsStore.constructor` | src/context/SettingsProvider.tsx:30-32 | no device settings initially |
| `Options.SettingsStore.SetDeviceSettings` | src/context/SettingsProvider.tsx:30-32 | the shared value is replaced wholesale |
| `Options.SettingsStore.RenderLoraOptions` | src/utils/options.tsx:9-12 | a failed guard reports the load error once; the settings never change |
| `Options.SettingsStore.RenderDeploymentOptions` | src/utils/options.tsx:144-147 | a failed guard reports the load error once; the settings never change |
| `Options.SettingsStore.UpdateLoRaSetting` | src/utils/options.tsx:16-30 | the shared settings become the guarded single-field update of the old ones |
| `Options.SettingsStore.UpdateDeploymentSetting` | src/utils/options.tsx:151-168 | the shared settings become the guarded single-field update of the old ones |
| `PortSelector.SerialSelector.constructor` | src/utils/serial.tsx:6-8 | empty field, one empty list entry, not marked failed |
| `PortSelector.SerialSelector.EditPortInput` | src/utils/serial.tsx:58 | the field holds the typed text; nothing else changes |
| `PortSelector.SerialSelector.SendPort` | src/utils/serial.tsx:10-12 | the field shows the port before the host answers, and the port asked of `set_port` is exactly that port |
| `PortSelector.SerialSelector.SubmitPortInput` | src/utils/serial.tsx:46-49 | submitting asks `set_port` for the port that was in the field, and leaves the field as it is |
| `PortSelector.SerialSelector.SetPortReplied` | src/utils/serial.tsx:12-19 | success marks connected; failure shows the error and marks failed; the field keeps the port sent |
| `PortSelector.SerialSelector.GetAvailablePorts` | src/utils/serial.tsx:22-26 | the list is replaced on success and unchanged on failure |
| `PortSelector.SerialSelector.GetActivePort` | src/utils/serial.tsx:28-36 | the field shows the host's active port, possibly "", or "" on failure |
| `PortSelector.SerialSelector.PortInputClass` | src/utils/serial.tsx:52-55 | the error style is present exactly when the last attempt failed |
| `SerialMonitor.Rendered` | src/routes/serial-monitor.tsx:68 | a transcript with k line feeds renders as k + 1 paragraphs, none containing a line feed |
| `SerialMonitor.InitialLines` | src/routes/serial-monitor.tsx:43 | the initial transcript renders as seven lines "A" |
| `SerialMonitor.AppendLine` | src/routes/serial-monitor.tsx:47 | appending a line without a line break adds exactly that one rendered line |
| `SerialMonitor.EchoRendering` | src/routes/serial-monitor.tsx:47-68 | after an echo the rendered lines are the old ones followed by the message's lines; the last rendered line is the message's last line; a message without a line break adds exactly one line |
| `SerialMonitor.SerialStream.constructor` | src/routes/serial-monitor.tsx:43-44 | the transcript renders as seven lines "A" and the send box is empty |
| `SerialMonitor.SerialStream.EditInput` | src/routes/serial-monitor.tsx:78 | the send box holds the typed text; the transcript is unchanged |
| `SerialMonitor.SerialStream.SendSerialMessage` | src/routes/serial-monitor.tsx:46-49 | the transcript gains a line feed and the message, keeping the old text as a prefix, and its rendering is the old lines followed by the message's; the send box is cleared |
| `SerialMonitor.SerialSelector.constructor` | src/routes/serial-monitor.tsx:6-7 | empty field, ports "/dev/usb1" and "/dev/usb2" |
| `SerialMonitor.SerialSelector.EditPortInput` | src/routes/serial-monitor.tsx:27 | the field holds the typed text |
| `SerialMonitor.SerialSelector.SendPort` | src/routes/serial-monitor.tsx:9-11 | only the field changes; no host call |
| `SerialMonitor.SerialSelector.GetAvailablePorts` | src/routes/serial-monitor.tsx:13-15 | the list is replaced by a successful reply |

## Left out

- Serial I/O is not modelled. The model has no port driver, no 10 ms
  timeout and no 100 ms sleep between monitor passes. The outcomes of
  opening, reading and writing are parameters.
- A failing `flush().unwrap()` after a write and a failing
  `try_clone().expect(...)` would panic. The model treats both as
  succeeding.
- The host's `eprintln!` logging is not modelled.
- `Serial.SerialData.MonitorStep` models one pass of `serial_monitor`, not
  its endless loop. The chunk arrives already decoded. The optional
  `protocol` field, `ProtocolTrait::parse_to_string` and the lossy UTF-8
  decoding are not part of this model.
- Concurrency is not modelled: the `Mutex` around the application state, the
  spawned monitor task, and the asynchronous `invoke` bridge. Each command
  and each `.then`/`.catch` branch is one atomic step.
- React handlers capture the settings value of the last render. The model's
  handlers read the current value instead, so a stale closure is not
  modelled.
- Serialization is not modelled: serde, JSON and `BoardVariant::serialize`.
  `Options.FromHost` states only the tag/content shape the front end
  receives.
- `f32` quantities (`apogee_delay`, `main_altitude`) are exact reals. The
  commands only store and compare them.
- `Options.UpdateLoRa` and `Options.UpdateDeployment` narrow the handlers'
  `value: any` to the field's declared type. In the application the DOM
  hands over strings for the numeric fields.
- `Options.UpdateLoRa` and `Options.UpdateDeployment` take the
  "setter present" test as a parameter. In the application it is always a
  function, so the test always passes.
- `SerialMonitor.SerialSelector.GetAvailablePorts` takes the reply as a
  parameter. The page defines this handler but never calls it: no effect
  and no click handler invokes it, so the list keeps its initial two
  entries. Were it called, it would invoke `get-available-ports`, a name
  the host does not register.
- `greet`, the presentation components, theming and `localStorage` are not
  part of this model: `src/layout.tsx`, `src/main.tsx`,
  `src/utils/header.tsx`, `src/routes/metrics.tsx`, `src/routes/live-map.tsx`
  and `src/routes/device.tsx`.
- `showError` is modelled only as an appended message. The modal dialog is
  not modelled.
