# OpenMoose control plane, modelled in Dafny

This project models the backend of the OpenMoose desktop app, a Tauri app
written in Rust, together with its small 46elks telephony bridge, written in Python:

- **Config store** (`config_store.dfy`): `~/.moose/config.json` as a JSON value.
  The app reads it through a typed view with two owned fields:
  `setup_complete`, default `false`, and `theme`, default `"dark"`.
  `update_config` reads the document, inserts exactly those two keys and writes it back.
  Every other key keeps its value, and a root that is not an object is refused.
- **Project-root search** (`project_root.dfy`): `find_project_root` walks up from the
  working directory. It stops at the nearest directory holding `package.json` and either
  `pnpm-workspace.yaml` or `src/gateway`.
- **Gateway supervisor** (`gateway.dfy`): the single child slot
  `GatewayState(Mutex<Option<CommandChild>>)` is a class with one field.
  `start_gateway_internal` and `stop_gateway` are methods on it.
  The port comes from `GATEWAY_PORT` and defaults to 18789.
  The auto-start rule of the setup hook is a predicate.
- **Resumable download** (`download.dfy`): `download_model` runs against a server record.
  The record holds the HEAD and fallback-GET lengths and the content GET's status and chunks.
  The model file is its bytes, and the `download-progress` events are a sequence.
  The 200 ms throttle is one boolean per chunk.
- **Startup snapshot** (`startup.dfy`): the `~/.moose` paths, the model-size sanity check
  and `get_startup_info`.
- **46elks bridge** (`elks_bridge.dfy`): `do_POST` routing, the voice-call instruction
  document, and the SMS field defaults.

`common.dfy` holds `Option`, `Result` and decimal digits. `json.dfy` holds the JSON value type.

Some facts about the code that the model keeps:
- The code launches the gateway with `pnpm run gateway`, or `npm run gateway` when pnpm
  cannot run, from the project root. It has no interrupt-signal forwarding, no
  well-known-path binary lookup and no bundled `resources/gateway` lookup.
- The code writes the config with a plain `fs::write`. It does not write a temporary file and rename it.
- The code never caps the download counter at the total. Only the final event is forced to
  `(total, total)`. So "downloaded <= total" holds whenever the body carries no more than the
  missing bytes, and only a longer body pushes the counts past the total.
  `Download.CompleteTransferProgress` proves the bound.
  A 200 reply to a resumed request makes the counter drop back to 0.

## Model

| member | source | states |
|---|---|---|
| `ConfigStore.ReadConfigRaw` | app/src-tauri/src/lib.rs:290-298 | an absent file reads as the empty object `{}`; an unreadable or malformed file is an I/O or parse error; otherwise the stored document |
| `ConfigStore.Decode` | app/src-tauri/src/lib.rs:26-45 | the typed view succeeds exactly on an object whose owned keys, when present, have the right JSON type; `setup_complete` is true only when stored as `true`; `theme` is the stored string or `"dark"` |
| `ConfigStore.DecodeIgnoresOtherKeys` | app/src-tauri/src/lib.rs:23-32 | two documents that agree on the owned keys decode alike: unknown fields never matter |
| `ConfigStore.GetConfig` | app/src-tauri/src/lib.rs:300-303 | with no config file the typed read gives `setup_complete = false`, `theme = "dark"`; an I/O or parse error of the raw read is returned unchanged |
| `ConfigStore.Merge` | app/src-tauri/src/lib.rs:360-372 | fails with NotAnObject exactly when the root is not an object; otherwise the keys are the old keys plus the two owned ones, the owned keys hold the new values, every other key keeps its value, and decoding the result gives back the written config |
| `ConfigStore.MergeLastWriteWins` | app/src-tauri/src/lib.rs:365-372 | a second update completely overrides the first, so writing the same config twice equals writing it once |
| `ConfigStore.ConfigStore.Update` | app/src-tauri/src/lib.rs:353-376 | a directory, read or write failure or a non-object root gives the matching error and leaves the file unchanged; on success the file holds the merged document and reads back as the given config |
| `ProjectRoot.IsProjectRoot` | app/src-tauri/src/lib.rs:71-75 | a root always has `package.json`; `package.json` together with either `pnpm-workspace.yaml` or `src/gateway` is enough |
| `ProjectRoot.NearestRootIsNearest` | app/src-tauri/src/lib.rs:69-84 | the search result is an ancestor of the working directory (itself included) that passes the marker test, with no nearer ancestor passing it; no result means no ancestor up to the root passes |
| `ProjectRoot.FindProjectRoot` | app/src-tauri/src/lib.rs:69-84 | the popping loop returns exactly the nearest qualifying ancestor, and None when the working directory is unknown |
| `Gateway.ParseU16` | app/src-tauri/src/lib.rs:63 | after an optional leading `+`, the text parses exactly when it is a non-empty digit string denoting less than 65536 (leading zeros allowed), and the result is the number it denotes |
| `Gateway.ParseU16LeadingZero` | app/src-tauri/src/lib.rs:63 | a leading zero changes neither whether a digit string parses nor its value: `"08080"` is port 8080 |
| `Gateway.ParseU16RoundTrip` | app/src-tauri/src/lib.rs:60-65 | every port written in decimal, with or without `+`, parses back to itself |
| `Gateway.ParseU16RejectsOverflow` | app/src-tauri/src/lib.rs:63 | a decimal number of 65536 or more is refused, not truncated |
| `Gateway.GatewayPort` | app/src-tauri/src/lib.rs:60-65 | the port is the parsed `GATEWAY_PORT` when it is a valid u16, else 18789 (also when unset, as the unit test at lines 433-438 checks); always below 65536 |
| `Gateway.GatewayLaunch` | app/src-tauri/src/lib.rs:101-114 | the gateway runs as `pnpm run gateway` when pnpm runs, else `npm run gateway`, in the project root |
| `Gateway.GatewaySupervisor.constructor` | app/src-tauri/src/lib.rs:399 | the supervisor starts with an empty slot |
| `Gateway.GatewaySupervisor.Start` | app/src-tauri/src/lib.rs:86-127 | an occupied slot gives "Gateway already running", spawns nothing and keeps the slot; with no project root the start fails and the slot stays empty; otherwise it launches from the nearest root, and a successful spawn fills the slot while a spawn error leaves it empty |
| `Gateway.GatewaySupervisor.Stop` | app/src-tauri/src/lib.rs:137-149 | an empty slot gives "Gateway not running" and no kill; an occupied slot's child is killed and the slot ends empty whether or not the kill succeeded, whose outcome decides the message |
| `Gateway.StartTwiceSpawnsOnce` | app/src-tauri/src/lib.rs:90-93 | two starts in a row launch one command and record one child; the second launches nothing and reports "Gateway already running" |
| `Gateway.StopWhenIdle` | app/src-tauri/src/lib.rs:146-147 | stopping a fresh supervisor reports "Gateway not running" and kills nothing |
| `Gateway.ShouldAutoStart` | app/src-tauri/src/lib.rs:416-422 | the gateway auto-starts only when a stored config object holds `setup_complete: true`; an unreadable or malformed config never starts it |
| `Gateway.AutoStartAfterSetupOnly` | app/src-tauri/src/lib.rs:416-422 | a first launch (no config file) does not auto-start the gateway; a launch after `setup_complete = true` was saved does |
| `Download.TotalSize` | app/src-tauri/src/lib.rs:165-186 | the total is HEAD's non-zero Content-Length, else the fallback GET's; it is positive when known; it is unknown exactly when both are zero or absent |
| `Download.SizeRequests` | app/src-tauri/src/lib.rs:165-182 | the size probe starts with HEAD, sends the fallback GET exactly when HEAD answered with no or zero length, and never fetches content |
| `Download.DetermineTotal` | app/src-tauri/src/lib.rs:165-186 | the size probe sends exactly SizeRequests and settles on TotalSize |
| `Download.RangeFor` | app/src-tauri/src/lib.rs:227-230 | a Range header is sent exactly when the offset is positive, and it reads `bytes=<offset>-` with the offset in decimal |
| `Common.DecimalRoundTrip` | app/src-tauri/src/lib.rs:228-230 | the decimal offset written into the Range header reads back as the offset |
| `Download.StreamEvents` | app/src-tauri/src/lib.rs:259-275 | there is at most one event per chunk; each carries the total and a count between the start and the start plus all streamed bytes |
| `Download.StreamEventsNonDecreasing` | app/src-tauri/src/lib.rs:259-275 | the counts reported while streaming never decrease |
| `Download.CompleteTransferProgress` | app/src-tauri/src/lib.rs:217-284 | when the body carries no more than the missing bytes, the events go from `(d, total)` to `(total, total)`, never decrease and never exceed the total |
| `Download.StreamBody` | app/src-tauri/src/lib.rs:256-275 | the streaming loop appends every chunk to the file in order, advances the counter by each chunk's length, and emits the throttled events |
| `Download.Transfer` | app/src-tauri/src/lib.rs:190-287 | opens or creates the file and emits `(d, total)` first; the request carries a Range only when d > 0; a transport failure or a non-success status leaves the partial file in place; a success status other than 206 with d > 0 truncates the file and emits `(0, total)`; the body is appended; a complete stream ends on `(total, total)` |
| `Download.DownloadModel` | app/src-tauri/src/lib.rs:152-288 | the requests are the size probe's, followed by one content GET only when the size is known and the file is short of it; an unknown size fails before any content request; a file of at least the total size gives exactly one `(total, total)` event; when resuming against a 206 reply the old bytes are kept and the body is appended after them; every successful download ends on `(total, total)` |
| `Startup.MooseDir` | app/src-tauri/src/lib.rs:47-50 | the app directory is `.moose` directly inside the home directory |
| `Startup.ConfigPath` | app/src-tauri/src/lib.rs:52-54 | the config file is `config.json` directly inside `~/.moose`, the directory `update_config` creates |
| `Startup.ModelPath` | app/src-tauri/src/lib.rs:56-58 | the model file is `~/.moose/models/llama-cpp/` followed by the model file name |
| `Startup.CheckModelExists` | app/src-tauri/src/lib.rs:305-317 | the model counts as present only when its file exists and is larger than the minimum; a missing file is absent |
| `Startup.ModelCheckIsStrict` | app/src-tauri/src/lib.rs:305-317 | a missing model file, or one of exactly the minimum size, is reported absent; one byte more is enough |
| `Startup.GetStartupInfo` | app/src-tauri/src/lib.rs:324-346 | a config error aborts the snapshot; otherwise `model_exists` is `check_model_exists_internal`'s answer, the model name is always the model file name, the model is reported present exactly when its size exceeds the minimum, and an absent model reports size 0; the port is `get_gateway_port`'s |
| `ElksBridge.LoadConfig` | tools/46elks-bridge/elks_bridge.py:10-13 | PRESS_DIGIT defaults to `"0"`, which is non-empty; RECORDING_LIMIT is the given integer when set and 60 otherwise; FORWARD_TO_NUMBER is unset unless given |
| `ElksBridge.HandleVoice` | tools/46elks-bridge/elks_bridge.py:34-64 | a call carrying `recording_url` gets plain OK; otherwise `recordcall` is `https://` plus the Host header (default `localhost:5000`); with a digit to press, `play` dials it after the pause and `next` forwards or records; with no digit but a forward number, `connect` is top level; with neither, the call is recorded back to the bridge with the time limit |
| `ElksBridge.VoiceInstructionsContinueOnce` | tools/46elks-bridge/elks_bridge.py:46-63 | every instruction document continues in exactly one way (`next`, `connect` or `record`), and a top-level `record` goes back to the bridge itself |
| `ElksBridge.DefaultConfigPressesZero` | tools/46elks-bridge/elks_bridge.py:11-55 | with PRESS_DIGIT unset, a call is answered by pressing 0 after the pause |
| `ElksBridge.HandleSms` | tools/46elks-bridge/elks_bridge.py:66-75 | the sender defaults to `Unknown` and the text to the empty string; the reply is always OK |
| `ElksBridge.DoPost` | tools/46elks-bridge/elks_bridge.py:77-85 | a POST goes to the voice handler exactly when it carries `callid`, and to the SMS handler otherwise |

## Left out

- ConfigStore.Decode: serde can also decode a JSON array root into `AppConfig` by position. The model treats every non-object root as a decode error.
- ConfigStore.ConfigStore.Update: a failed `fs::write` is modelled as leaving the old file in place. A half-written file is not modelled.
- JSON text: parsing (`serde_json::from_str`) and pretty-printing (`to_string_pretty`) are not modelled. The store holds the parsed value, and a written value is assumed to read back unchanged. JSON numbers are integers; fractions are left out.
- Home directory: `home_dir` resolution is not modelled, and the model assumes it succeeds.
- HTTP: reqwest requests, transport errors and statuses are the fields of the `Server` record. The error texts, such as the status's reason phrase, are reduced to `DownloadError` variants.
- Download disk I/O: failures of `create_dir_all`, `metadata`, `open`, `File::create` and `write_all` in `download_model` are not modelled, and the disk is assumed to succeed. Failures to build the HTTP client and to emit an event are not modelled either.
- Event delivery: `app.emit` is modelled as appending to the event sequence.
- Throttle: the 200 ms check is one boolean per chunk, and no rate bound is claimed.
- Counter width: the download counter is an unbounded integer. The u64 overflow would need more than 2^64 bytes.
- Process control: `spawn`, `kill` and the `pnpm --version` probe are outcome parameters.
- Concurrency: the mutex and async execution are not modelled. The model is sequential, so holding the lock means exclusive access to the slot.
- Startup.GetStartupInfo: the size comes from a second `metadata()` read at lib.rs:334, whose failure gives 0. The model reads both from one filesystem snapshot, so a file that changes or vanishes after the check is not modelled. In the code that can report `model_exists = true` with size 0, or with a size no larger than the minimum. The statement "present exactly when the size exceeds the minimum" holds only for this single snapshot. The `"Unknown"` name fallback at lib.rs:333 is dead in the code too, because the model path always ends in the model file name.
- `check_docker` is left out: it only runs `docker info` and reports the result.
- Tauri plumbing is left out: the builder, the plugin registration and the command handlers. The setup hook is kept only as `Gateway.ShouldAutoStart`.
- `println!` logging and the bridge's `print` output are left out.
- `app/src-tauri/build.rs` is left out: it only creates a placeholder file at build time.
- Bridge HTTP: `HTTPServer`, `serve_forever`, reading the body by Content-Length and `parse_qs` are not modelled. The handlers take the parsed parameters and the Host header.
- ElksBridge.LoadConfig: `int()` of RECORDING_LIMIT is not modelled. When the setting is present, its converted integer is a parameter; the default of 60 is modelled. A malformed value, which stops the bridge at import, is not represented.
