# LLM Launcher Control Server — verified model of the supervisor core

This project models the core of `llm_control_server.py`, a small HTTP
control server. The server supervises a single `llama-server` child
process. It covers:

- the supervisor state machine (`start_model`, `stop_model`, `get_status`,
  and the health decision of `check_llama_health`) over the globals
  `current_process`, `current_model`, `start_time` and `request_count`;
- the bounded log buffer `process_logs = deque(maxlen=200)`: appends,
  the per-line step of the output reader, clearing, and `get_logs`;
- command construction in `build_llama_args` and `get_model_path`;
- `validate_config`, with `os.path.exists` as an oracle parameter;
- `get_models`, `check_auth` and the GET / POST / OPTIONS dispatch.

The operating system, the network and the clock become inputs:

- the outcome of `Popen`, of SIGTERM plus `wait(timeout=10)`, of the
  `kill()` escalation and of `poll()`;
- the result of `connect_ex`;
- an integer reading of `time.time()`;
- one timestamp string per `datetime.now()` call site.

Configuration values are opaque strings: the `str()` rendering the
program puts on the command line. The `models` object is an association
list in insertion order.

Files, one module each:

- `wrappers.dfy`: `Option`.
- `configuration.dfy`: the configuration shape, model lookup, the model
  path (POSIX `os.path.join`), the `Complete` predicate, and `get_models`.
- `validation.dfy`: the diagnostics as data (`Issue`, and `Message` for
  their text). `ConfigReport` is the specification. The method
  `ValidateConfig` accumulates the lists in loops, as the source does,
  and is proved equal to it.
- `launch_args.dfy`: the specification `LlamaArgs` (fixed prefix, a
  table of optional flags, extra arguments). `BuildLlamaArgs` grows the
  list with `extend`.
- `output_reader.dfy`: Python's `str.strip`, the reader's per-line
  decision, and the lines one reader captures.
- `logs.dfy`: `Window`, which specifies the deque; the class
  `LogBuffer`, whose field is a sequence; and `get_logs`, which uses
  Python slice clamping.
- `control.dfy`: a pure `State` with `StopStep`, `StartStep` and
  `StatusStep`, which say what each call returns or raises and the state
  it leaves. The class `Supervisor` holds the globals as fields, and its
  methods are proved to agree with those functions.
- `routing.dfy`: authorisation, dispatch and status codes.

Where the program's behaviour may surprise a reader, the model follows the code:

- `start_model` stops the old process and only then clears the buffer.
  The "Stopping" and "Stopped" lines are therefore gone, and after a
  start the buffer holds exactly the "Starting" and "Command" lines.
- `get_status` reports an exited process as not running but leaves the
  slot, model and start time in place.
- `get_logs(0)` returns the whole buffer (`log_list[-0:]`), not an empty
  list. A negative count drops entries from the front.
- A model without `name` is only a validation warning. It makes
  `start_model` (after the buffer is cleared), `stop_model` (before
  anything changes), `get_status` (after the request is counted) and
  `get_models` raise `KeyError('name')`. The model represents this as a
  raised outcome.
- No lock serialises the operations. The model is sequential.
- When `kill()` or the second `wait()` raises after the timeout, the
  `finally` clause still clears the slot, and the exception escapes
  `stop_model`. No "Stopped" line is written.
- The server only starts when validation reports no errors (the `main`
  guard). `NoErrorsIffComplete` shows that this makes every lookup the
  supervisor performs without a default total, except the lookup of a
  model's `name`, which is only warned about and can still raise. So
  `Complete(config)` is part of the supervisor invariant.

## Model

| member | source | states |
|---|---|---|
| Configuration.Lookup | llm_control_server.py:161-169 | `model_id in CONFIG["models"]` and the lookup: a result exists iff some entry has the id, and it is the value of the first entry with that id |
| Configuration.KnownModelHasFile | llm_control_server.py:80-83 | under a configuration that validates, every listed model has `file` |
| Configuration.JoinPath | llm_control_server.py:105-107 | `os.path.join`: an absolute name replaces the base; a relative name follows the base, joined by one `/` unless the base is empty or already ends in `/` |
| Configuration.ModelPath | llm_control_server.py:105-107 | `get_model_path`: an absolute `file` is taken as is; a relative one is placed under `models_base`, after a `/` when the base does not end in one |
| Configuration.GetModels | llm_control_server.py:367-371 | `get_models`: defined iff every model has `name` (otherwise `KeyError`); one entry per model, in order; context defaults to 8192 |
| Validation.ValidateConfig | llm_control_server.py:34-91 | the two lists the loops accumulate equal the reference report `ConfigReport` |
| Validation.CheckRequiredKeys | llm_control_server.py:40-43 | the top-level key loop yields one error per missing key, in key order |
| Validation.CheckPaths | llm_control_server.py:60-73 | the `llama_server` and `models_base` checks append the path errors to the earlier errors |
| Validation.CheckModels | llm_control_server.py:79-89 | the per-model loop appends exactly the per-model errors and warnings, in model order |
| Validation.MissingKeysMembers | llm_control_server.py:40-43 | the key errors are exactly the missing required keys; there are none iff every key is present |
| Validation.TopKeysPresentIff | llm_control_server.py:40-46 | the key loop produces no error iff all four sections are present |
| Validation.MissingTopKeyStopsValidation | llm_control_server.py:45-46 | with a section missing, validation returns early: no warnings, only key errors, one for each missing key |
| Validation.ModelIssuesKinds | llm_control_server.py:79-89 | the per-model errors are all missing-`file`; the warnings are missing-`name` or file-not-found |
| Validation.ModelIssuesMissingFile | llm_control_server.py:82-83 | the missing-`file` error for an id is reported iff a model with that id lacks `file` |
| Validation.ModelIssuesMissingName | llm_control_server.py:80-81 | the missing-`name` warning for an id is reported iff a model with that id lacks `name` |
| Validation.ModelIssuesNoErrors | llm_control_server.py:79-89 | the model loop reports no error iff every model has `file` |
| Validation.ModelMissingNameOnlyWarns | llm_control_server.py:80-81 | in the full report a missing `name` is never an error, and is a warning iff some model with that id lacks it |
| Validation.ModelMissingFileIsError | llm_control_server.py:82-83 | in the full report a missing `file` is an error iff some model with that id lacks it |
| Validation.DefaultApiKeyOnlyWarns | llm_control_server.py:55-58 | the default API key is never an error, and is a warning iff the key equals the default |
| Validation.MissingApiKeyIsError | llm_control_server.py:55-56 | a missing API key is an error iff `api_key` is absent |
| Validation.NoErrorsIffComplete | llm_control_server.py:34-91 | validation reports no error iff every key read without a default, except each model's `name`, is present and both configured paths exist |
| LaunchArgs.Present | llm_control_server.py:127-136 | the optional flags whose keys the model has: every such row is included and no other |
| LaunchArgs.PresentAt | llm_control_server.py:127-136 | the positions of the rows whose keys the model has: increasing, and every such position is listed |
| LaunchArgs.PresentInOrder | llm_control_server.py:127-136 | the flags come in table order: the j-th present flag is the row at the j-th such position |
| LaunchArgs.FlagPairsLayout | llm_control_server.py:127-136 | the flag section has two words per present key: the flag, then the model's value |
| LaunchArgs.OptionalFlagPairs | llm_control_server.py:127-136 | the five `if key in model: extend` steps together add exactly the flag section |
| LaunchArgs.ExtendOptionalFlags | llm_control_server.py:127-136 | the five conditional `extend` calls append exactly the flag section to what came before |
| LaunchArgs.LlamaArgsLayout | llm_control_server.py:110-140 | 11-word prefix (context and GPU layers defaulting to 8192 and 48), then one pair per present flag in the fixed order, then `extra_args` verbatim; length 11 + 2·flags + extras |
| LaunchArgs.BuildLlamaArgs | llm_control_server.py:110-140 | the list grown with `extend` equals `LlamaArgs` |
| OutputReader.TextStart | llm_control_server.py:148 | the text starts at the first non-whitespace position: everything before it is whitespace |
| OutputReader.TextEnd | llm_control_server.py:148 | the text ends just past the last non-whitespace position: everything after it is whitespace |
| OutputReader.Strip | llm_control_server.py:148 | `str.strip`: empty iff the line is all whitespace; otherwise a slice of the line with whitespace only around it and none at its ends |
| OutputReader.ReaderLine | llm_control_server.py:146-151 | a blank line adds nothing; any other line adds `[timestamp] ` followed by the stripped text |
| OutputReader.Entry | llm_control_server.py:149-151 | the entries one read line contributes: none iff it is blank |
| OutputReader.CapturedStep | llm_control_server.py:146-151 | reading one more line extends the captured entries by that line's entry |
| Logs.Window | llm_control_server.py:100 | what a `maxlen=200` deque holds: the last min(n, 200) items received, in order |
| Logs.WindowShort | llm_control_server.py:100 | below capacity nothing is evicted |
| Logs.WindowAppendFull | llm_control_server.py:100 | appending to a full buffer drops exactly the oldest entry and keeps the rest in order |
| Logs.WindowOfWindow | llm_control_server.py:100 | evicting early or late leaves the same contents |
| Logs.WindowFeed | llm_control_server.py:146-151 | feeding lines one at a time into the bounded buffer equals bounding the whole stream |
| Logs.GetLogs | llm_control_server.py:361-364 | for n ≥ 1, the last min(n, len) entries in order; n = 0 gives all entries; negative n drops entries from the front |
| Logs.LogBuffer.constructor | llm_control_server.py:100 | the buffer starts empty |
| Logs.LogBuffer.Append | llm_control_server.py:151 | contents become `Window(old + [line])`, never more than 200 |
| Logs.LogBuffer.Clear | llm_control_server.py:168 | contents become empty |
| Logs.LogBuffer.OnOutputLine | llm_control_server.py:146-151 | one reader iteration: the line's entry, if any, is appended through the window |
| Logs.LogBuffer.CaptureOutput | llm_control_server.py:143-155 | the reader loop over a whole output leaves `Window(old + Captured(lines))` |
| Control.StopStep | llm_control_server.py:214-248 | no process: "No model running", nothing changes. With a process, `KeyError('name')` is raised iff the id is non-empty and its model lacks `name`, and nothing changes. Otherwise "Stopping" is logged and the slot cleared: a clean exit or a successful kill gives `Stopped` with the id and name and a "Stopped" line; a failing wait gives `StopFailed` with its message; a failing kill raises with that message; invariant kept |
| Control.SpawnStep | llm_control_server.py:179-211 | a successful spawn records pid, id and start time and returns `Started(id, name, pid)`; binary-not-found and any other failure give `StartFailed` with their messages and record nothing |
| Control.LaunchStep | llm_control_server.py:168-211 | after the stop: the buffer is cleared; `KeyError('name')` is raised iff the model lacks `name`, leaving the buffer empty; otherwise it holds exactly the two start lines before spawning |
| Control.Before | llm_control_server.py:164-166 | stopping any running process raises exactly when `stop_model` would; otherwise the slot is empty and only the buffer differs |
| Control.StartStep | llm_control_server.py:158-211 | an unknown id changes nothing; a stop that raises propagates (nothing changes on `KeyError`; the slot is cleared after "Stopping" on a failed kill); then `KeyError('name')` iff the new model lacks `name`, with an empty buffer; otherwise the buffer is exactly "Starting" + "Command" and spawn success gives `Started(id, name, pid)` with the slot filled, spawn failures `StartFailed` with their messages; invariant kept |
| Control.BuildCommandLine | llm_control_server.py:170-177 | the "Command" log line is the launch command joined with spaces |
| Control.HealthCheck | llm_control_server.py:251-269 | no process: `not_running` without probing; otherwise healthy iff `connect_ex` returns 0, `port_not_responding` for other codes, the exception text otherwise |
| Control.StatusStep | llm_control_server.py:331-358 | raises `request_count` by exactly 1 and changes nothing else, even for an exited process; idle and exited replies; a live process raises `KeyError('name')` iff its model lacks `name`, otherwise reports its model, name, pid, uptime, health and count |
| Control.StopIdempotent | llm_control_server.py:217-218 | after a stop that gets past the name lookup, every further stop is "No model running" and changes nothing |
| Control.StartThenStop | llm_control_server.py:158-248 | after a successful start, a graceful stop reports the same id and name and empties the slot |
| Control.Supervisor.constructor | llm_control_server.py:97-102 | initial globals: no process, no model, no start time, count 0, empty buffer |
| Control.Supervisor.Stop | llm_control_server.py:214-248 | the reply and new fields are those of `StopStep` |
| Control.Supervisor.Start | llm_control_server.py:158-211 | the reply and new fields are those of `StartStep` |
| Control.Supervisor.Launch | llm_control_server.py:168-177 | the reply and new fields are those of `LaunchStep` |
| Control.Supervisor.Spawn | llm_control_server.py:179-211 | the reply and new fields are those of `SpawnStep` |
| Control.Supervisor.Status | llm_control_server.py:331-358 | the reply and new fields are those of `StatusStep` |
| Control.Supervisor.RecentLogs | llm_control_server.py:361-364 | `get_logs` on the live buffer: for n ≥ 1, its last min(n, len) entries |
| Routing.CheckAuth | llm_control_server.py:958-961 | authorised iff the header equals the key, or the header is absent and the key is empty |
| Routing.LastSegment | llm_control_server.py:1016 | `split("/")[-1]`: a suffix without '/', preceded by '/' when shorter than the path |
| Routing.LastSegmentAfterSlash | llm_control_server.py:1016 | any slash-free text after a '/' is read back as the last segment |
| Routing.RouteGet | llm_control_server.py:977-1006 | root paths are public; every other path gets 401 with a wrong key; with the key each protected path goes to its own operation and only unknown paths get 404; `lines` defaults to 50; a non-integer `lines` escapes as `ValueError` |
| Routing.RoutePost | llm_control_server.py:1008-1019 | 401 with a wrong key; with the key `/api/stop` stops, any other `/api/start/...` path starts its last segment, and only other paths get 404 |
| Routing.RouteOptions | llm_control_server.py:1021-1026 | the preflight is answered with 200 without a key and never raises |
| Routing.StatusCode | llm_control_server.py:977-1019 | 401 exactly for unauthorised, 404 exactly for not found; no reply exactly when `ValueError` escapes or the operation of status, models, start or stop raised; otherwise 200 |
| Routing.StatusUnanswered | llm_control_server.py:991-992 | `GET /api/status` gets no reply exactly when a live process's model has no `name` |
| Routing.StopUnanswered | llm_control_server.py:1013-1014 | `POST /api/stop` gets no reply exactly when `stop_model` raises: a nameless model, or a failing kill |
| Routing.ModelsUnanswered | llm_control_server.py:993-994 | `GET /api/models` gets no reply exactly when some model has no `name` |
| Routing.StartTakesLastSegment | llm_control_server.py:1015-1017 | an authorised `POST /api/start/<id>` with a slash-free id starts exactly `id` |

## Left out

- HTTP plumbing (`send_json`, `send_html`, headers, `wfile`, `serve_forever`, `main` and its `KeyboardInterrupt` handling): I/O. Only the dispatch decision and the status code are modelled.
- `urlparse` and `parse_qs`: a GET arrives with its path parsed and with `lines` as absent, an integer, or text that `int()` refuses.
- `subprocess.Popen`, signals, `wait` and `kill`, and `poll`: replaced by outcome parameters. The platform branch (`terminate` on Windows, SIGTERM elsewhere) collapses into one outcome.
- The daemon log-reader threads running alongside the request handler: concurrency. The plain `HTTPServer` handles requests one at a time, but each started process has its own reader thread, and an earlier process's reader can still append to the buffer after `process_logs.clear()`. `CaptureOutput` models one reader's whole loop run on its own.
- UTF-8 decoding with replacement: lines arrive as already-decoded text. `readline` exceptions, which the reader swallows, are not modelled.
- Sockets in `check_llama_health`: the `connect_ex` result or exception is an input.
- `get_system_stats` and `get_network_info`: subprocesses, sockets and float arithmetic.
- Routing.StatusCode: stats, network and version requests are taken never to raise (`get_system_stats` catches everything; a failing `socket.gethostname` is not modelled).
- `datetime.now().strftime` and `time.time()`: timestamps are string parameters and the clock is an integer.
- Control.StatusStep: uptime is `now - start` on an integer clock; the float truncation of `int(time.time() - start_time)` is not modelled.
- Control.StatusStep: the exited reply carries the exit code; the text "Process exited with code N" is not built.
- `load_config` (file read and JSON parsing) and `os.path.exists`: the configuration is a value, and path existence is an oracle predicate.
- `ntpath`-style joining (drive letters): `JoinPath` follows the POSIX rule.
- Configuration.Lookup: the JSON object is an association list and key uniqueness is not assumed; with a repeated id the first entry wins, whereas `json.load` keeps the last value for a repeated key.
- The embedded HTML/JS user interface: presentation only.
- `Validation.Message` renders each diagnostic's text. It carries no contract of its own.
