# Session orchestrator of the RTVI infrastructure examples, in Dafny

This project models the part of the repository that launches and ends
real-time voice-agent sessions:

- **Shell quoting** (`escape_bash_arg`). The local runner quotes the
  serialized bot configuration before splicing it into a shell command line.
  `ShellQuote` states the quoting as a function. It also gives the part of
  the POSIX Shell Command Language (IEEE Std 1003.1-2017) that reads such an
  argument back: section 2.2.1, Escape Character, and section 2.2.2,
  Single-Quotes. The round trip is proved for every string.
- **Host allow-list** (`check_host_whitelist` and its middleware). This is a
  pure predicate over the raw `Host` header and the comma-separated
  `HOST_WHITELIST`. The split follows Python's `str.split(",")`: entries are
  not trimmed, empty entries are kept, and `"".split(",")` is `[""]`. A missing
  header is rendered the way Python's f-string renders it, as `www.None`.
- **Session-launch requests**: the runner's `index` handler and the
  serverless `server` endpoint. Each is an imperative method that records
  every external call in a trace, in order. Each method is proved equal to a
  spec function (`IndexSpec`, `ServerSpec`), and the ordering properties are
  lemmas about that function.
  - The room service is represented by its replies (`RoomService`).
  - Schema validation is represented by its outcome: the serialized
    configuration, or a refusal.
  - Worker launch is represented by its outcome: the exception text, or
    success.
- **Worker lifecycle wiring**. `Worker.Session` holds the pipeline task's
  frame queue and the set of participants whose transcription is captured.
  It has one method per transport event handler. A ghost `history` and
  `Valid()` tie both fields to the events handled so far. The same three
  handlers appear in `bot/bot.py:57-71` and `02-modal.com/app.py:83-94`, and
  one class models both.
- **Worker command-line gate** (`__main__` of the worker). `main` runs only
  when `-u` and `-t` are non-empty and `-c` decodes to a truthy value
  (so `0`, `false`, `null`, `""`, `[]` and `{}` are refused too).

Environment variables are explicit parameters: `RunnerEnv` and `ModalEnv`.
The worker keeps no session state other than the frame queue and the
captured set.

The code behaves as follows where a reader might expect otherwise:
- An apex entry does not admit the `www.` host
  (`HostGuard.ApexEntryRejectsWww`).
- Ending is not de-duplicated: every departure queues another end frame
  (`Worker.TwoDeparturesQueueTwoFrames`).
- The serverless endpoint does not validate the configuration. Its success
  body has no `bot_config`.
- An empty configuration sent to the serverless endpoint raises a plain
  exception, not an HTTP error with that detail (`Reply.Unhandled`).

## Model

| member | source | states |
|---|---|---|
| ShellQuote.EscapeBashArg | 01-local/runner/bot_runner.py:39-40 | the quoted argument starts and ends with a single quote |
| ShellQuote.EscapeLength | 01-local/runner/bot_runner.py:40 | the quoted argument has length \|s\| + 2 + 3·(number of `'` in s) |
| ShellQuote.EscapeWithoutQuote | 01-local/runner/bot_runner.py:40 | for an argument without `'`, the result is the argument between two single quotes |
| ShellQuote.EscapeRoundTrip | 01-local/runner/bot_runner.py:40 | POSIX quote removal (sections 2.2.1 and 2.2.2) gives back exactly `s` for every `s`, including any holding `'` |
| ShellQuote.PlainWordUnquotes | 01-local/runner/bot_runner.py:131 | an unquoted argument with no character that section 2.2 wants quoted is read as itself; this is what the raw `-u` and `-t` values rely on |
| ShellQuote.RawQuoteBreaksWord | 01-local/runner/bot_runner.py:131 | every unescaped argument holding `'` is not read as itself, because quote removal drops at least that quote (`UnquoteShortens`) |
| HostGuard.Split | 01-local/runner/bot_runner.py:51 | Python's split never returns an empty list |
| HostGuard.CheckHostWhitelist | 01-local/runner/bot_runner.py:43-61 | the admission predicate over the raw allow-list and the optional Host header; its meaning is stated by EmptyWhitelistAdmitsAll, WhitelistAdmission and MissingHostHeader |
| HostGuard.SplitPiecesHaveNoSeparator | 01-local/runner/bot_runner.py:51 | no entry of the split holds a comma |
| HostGuard.JoinSplit | 01-local/runner/bot_runner.py:51 | joining the entries with commas restores the allow-list exactly (nothing trimmed or dropped) |
| HostGuard.SplitJoin | 01-local/runner/bot_runner.py:51 | splitting a comma-join of comma-free entries gives those entries back, so together with JoinSplit the split is unique |
| HostGuard.SplitNeverEmpty | 01-local/runner/bot_runner.py:51-55 | the `len(allowed_hosts) < 1` branch can never be taken |
| HostGuard.EmptyWhitelistAdmitsAll | 01-local/runner/bot_runner.py:44-48 | an empty or unset allow-list admits every request, whatever its Host header |
| HostGuard.WhitelistAdmission | 01-local/runner/bot_runner.py:51-61 | with a non-empty list, H is admitted iff H or `www.`+H is an entry |
| HostGuard.MissingHostHeader | 01-local/runner/bot_runner.py:45-58 | without a Host header, only an entry `www.None` admits the request |
| HostGuard.ApexEntryRejectsWww | 01-local/runner/bot_runner.py:57-58 | for any non-empty comma-free apex name, the list holding only that name does not admit its `www.` form |
| HostGuard.WwwEntryAdmitsApex | 01-local/runner/bot_runner.py:57-58 | for any comma-free apex name, the list holding only `www.` plus that name admits the apex name |
| HostGuard.EntriesAreNotTrimmed | 01-local/runner/bot_runner.py:51-58 | for a first entry that is neither `host` nor `www.`+`host`, in the list `first, host` the second entry is ` host` with its blank: the header `host` is refused and ` host` admitted |
| HostGuard.PortIsPartOfHost | 01-local/runner/bot_runner.py:45-58 | the header `host:port` is refused by the list `host` and admitted by the list `host:port` |
| Orchestration.ProvisionSpec | 01-local/runner/bot_runner.py:99-125 | the room-and-bot-token step shared with `02-modal.com/app.py:120-147`: the reply or room, token and calls it makes; its properties are stated by ProvisionAllOrNothing and the two ProvisioningErrors lemmas |
| Orchestration.ProvisionAllOrNothing | 01-local/runner/bot_runner.py:99-125 | provisioning starts with the debug-room lookup or the room creation, never launches a worker, mints tokens with the given lifetime, and either returns the service's room with a non-empty bot token or a 500 error |
| Runner.IndexSpec | 01-local/runner/bot_runner.py:75-147 | the reply and trace of `index` as a function of the body and the outside replies; Index is proved equal to it, and LaunchOrdering, ProvisioningErrors, LaunchFailure and SuccessfulSession state its properties |
| Runner.ReadBody | 01-local/runner/bot_runner.py:77-88 | how the first gates classify the body (probe, missing configuration, or a body with "config"), with Python's `in` on objects, arrays and strings; stated by BodyClassification |
| Runner.ConfigMapping | 01-local/runner/bot_runner.py:90-91 | `**data["config"]` has keyword arguments only when "config" is an object; otherwise the failure is the parse error, as ValidationPrecedesProvisioning states |
| Runner.LaunchCommand | 01-local/runner/bot_runner.py:131 | the shell command line of the launch; LaunchCommandCarriesConfig and WorkerReceivesLaunchArguments state what the shell and the worker make of it |
| Runner.Index | 01-local/runner/bot_runner.py:75-147 | the handler's reply and its trace of external calls are those of `IndexSpec`, built step by step |
| Runner.AllowedHostsMiddleware | 01-local/runner/bot_runner.py:66-72 | a refused host raises HTTPException(403, `Host access denied`) and no call is made; an admitted host gets exactly what `index` answers |
| Runner.BodyClassification | 01-local/runner/bot_runner.py:77-88 | an unreadable body is missing configuration; for an object body, "test" among its keys means probe, and neither "test" nor "config" means missing; the same for a list body over its elements and a string body over its substrings (so `["test"]` and `"contest"` are probes); a number, boolean or null body is missing configuration; a list or string holding "config" has no configuration object, so parsing fails |
| Runner.ProbeHasNoSideEffects | 01-local/runner/bot_runner.py:80-81 | a probe is answered `{"test": true}` with an empty trace: no parse, no room service, no launch |
| Runner.ValidationPrecedesProvisioning | 01-local/runner/bot_runner.py:83-94 | missing configuration gives its 500 with an empty trace; a refused schema gives the distinct 500 `Failed to parse bot configuration` with no room-service call and no launch |
| Runner.LaunchOrdering | 01-local/runner/bot_runner.py:96-140 | at most one launch, and one exactly when the configuration, the room and the bot token all succeeded; at most two tokens, each with the 900-second lifetime; the user token only after the launch |
| Runner.ProvisioningErrors | 01-local/runner/bot_runner.py:100-125 | `Room not found: <ref>`, the room-creation exception text, `Failed to get token for room: <name>`; each is a 500 with no launch and at most one token |
| Runner.LaunchFailure | 01-local/runner/bot_runner.py:127-137 | a failed launch is a 500 `Failed to start subprocess: <e>`, and the user token is never requested |
| Runner.SuccessfulSession | 01-local/runner/bot_runner.py:139-147 | a successful non-probe reply passed every gate; its body has exactly `room_name`, `room_url`, `token` (the user token) and `bot_config`; the launch carries the bot token and the quoted configuration, and the user token is minted last |
| Runner.IndexErrorsAre500 | 01-local/runner/bot_runner.py:75-147 | every error the handler raises has status 500, and, with a `get_token` that returns rather than raises, no plain exception escapes it |
| Runner.LaunchCommandCarriesConfig | 01-local/runner/bot_runner.py:130-131 | the command ends with the quoted configuration after a blank, and the shell reads that word back as the serialized configuration |
| Runner.WorkerReceivesLaunchArguments | 01-local/runner/bot_runner.py:131 | the worker gate, given the words the shell reads, decides exactly as on the runner's own URL, token and configuration |
| ModalApp.ServerSpec | 02-modal.com/app.py:103-164 | the reply and trace of `server` as a function of the configuration and the outside replies; Server is proved equal to it, and EmptyConfigRejected, LaunchOrdering, ProvisioningErrors and Handover state its properties |
| ModalApp.Server | 02-modal.com/app.py:103-164 | the endpoint's reply and trace are those of `ServerSpec`, built step by step |
| ModalApp.EmptyConfigRejected | 02-modal.com/app.py:112-113 | an empty configuration raises `Missing RTVI configuration object for bot` before any room-service call |
| ModalApp.LaunchOrdering | 02-modal.com/app.py:117-158 | at most one `run_bot.spawn`, and one exactly when the room and bot token succeeded; at most two tokens, each with the 300-second lifetime; the user token only after the spawn |
| ModalApp.ProvisioningErrors | 02-modal.com/app.py:120-147 | the debug room is looked up at the domain, a slash and the room name, but reported as `Room not found: <name>`; room-creation failure carries the exception text; a missing bot token names the room; no spawn in any of them |
| ModalApp.Handover | 02-modal.com/app.py:149-164 | the spawn passes room URL, bot token and the configuration object unquoted; a failed spawn is a 500 `Failed to start subprocess: <e>` with no user token; success answers exactly `room_name`, `room_url` and `token` (the user token) |
| ModalApp.WorkerLimitsMatchTokens | 02-modal.com/app.py:31-37 | `run_bot` keeps no warm instance, takes one input and never retries; its timeout equals the lifetime of every token the endpoint mints |
| Worker.Session.constructor | bot/bot.py:49-55 | a new task has an empty queue and no captured participant |
| Worker.Session.OnFirstParticipantJoined | bot/bot.py:57-60 | adds the participant's id to the captured set and leaves the queue unchanged |
| Worker.Session.OnParticipantLeft | bot/bot.py:62-65 | appends exactly one end frame, every time it is called |
| Worker.Session.OnCallStateUpdated | bot/bot.py:67-71 | appends an end frame iff the state is `left`, and otherwise leaves the queue unchanged |
| Worker.Session.Handle | bot/bot.py:57-71 | the handler registered for the event's name runs, and the queue grows by that event's frames |
| Worker.QueuedAppend | bot/bot.py:62-71 | handling two runs of events in turn queues the frames of both, in order |
| Worker.QueueCountsEndingEvents | bot/bot.py:62-71 | the queue holds only end frames, one per departure and one per `left` call state |
| Worker.TwoDeparturesQueueTwoFrames | bot/bot.py:62-65 | two departures queue two end frames (no de-duplication) |
| Worker.SessionQueueCounts | bot/bot.py:57-71 | a session in its invariant holds one end frame per departure or `left` state and nothing else, and has captured exactly the participants a first-participant event named |
| Worker.CapturedIffJoined | bot/bot.py:57-59 | a participant is captured iff a first-participant event named them |
| Worker.WorkerStart | bot/bot.py:82-87 | the worker's start decision from `-u`, `-t`, `-c` and a decoder; its meaning is stated by WorkerStartGate |
| Worker.WorkerStartGate | bot/bot.py:82-87 | `main` runs iff `-u` and `-t` are non-empty and `-c` decodes to a truthy value, and then with exactly those values; a missing `-c` never runs |

## Left out

- Container image building and `download_models` (`02-modal.com/app.py:9-26`): these are build steps.
- Framework start-up: uvicorn and argparse start-up, CORS setup, dotenv and loguru setup, and the log calls.
- The Daily REST helper, credentials and API URL: these are network calls. Their outcomes are the parameters in `RoomService`.
- A `get_token` that raises instead of returning nothing: such an exception would escape the handler, and the model has no such path.
- `RTVIConfig(**…)` and `model_dump_json`: schema validation is an outcome parameter, and the serialized configuration is an opaque string.
- The Pipecat pipeline (transport, processor, runner, voice-activity detection) and how it consumes an end frame.
- The Popen working directory: the model does not include it.
- Process and invocation failures: they appear only as exception text given as a parameter.
- Python's `json` module: decoding is a `loads` parameter.
- JSON floats: the `Num` case holds integers only.
- How the web framework renders an `HTTPException` raised from inside an HTTP middleware: the model gives the raised 403 and its detail, but that middleware runs outside the framework's exception handler, so the raised 403 may not reach the client as a 403 (it may surface as a 500).
- The framework's own body validation (`config: Dict` in `server`).
- The `server` function's deployment settings (one warm instance): these configure the platform and no behaviour of the model depends on them.
- The worker's argparse parsing: `-u`, `-t` and `-c` reach the gate as optional strings.
- A participant record without an `id`: the handler receives the id itself.
- Concurrency of the asynchronous handlers and of the web server: handlers are sequential calls on one object.
- Runner.WorkerReceivesLaunchArguments: does not model the shell's splitting of the whole command line into words. It states what the shell makes of each argument word.
- ShellQuote.PlainWordUnquotes: one direction only. A word that unquotes to itself is not shown to be free of characters that need quoting.
- Shell syntax beyond one literal word: `ShellUnquote` covers only literal characters, backslash escapes and single quotes. It rejects any unquoted blank, operator, expansion or pattern character rather than interpreting it.
