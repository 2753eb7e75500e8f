# Orion GNC mission sequencing — a Dafny model

Orion GNC flies a simulated vessel from mission plans. Three services cooperate over a
shared Redis server:

- The **mission sequencer** (`mission-sequencer/main.py`) admits plans over HTTP. It writes
  a QUEUED status record under `mission:<id>:status`, and it answers status queries,
  abort requests and health checks.
- Its Celery **worker** (`mission-sequencer/worker.py`) runs one plan.
  - It reports IN_PROGRESS, then walks `flight_plan`.
  - Before each command it polls the abort channel once. It then reports
    "Executing command i/n", forwards the command on `gnc_commands` and sleeps the
    command's delay.
  - It ends COMPLETED, ABORTED or FAILED, and always releases its abort subscription.
- The **flight-control service** (`gnc-flight-control/main.py`) keeps a set of WebSocket
  clients that it broadcasts telemetry to. It also applies forwarded commands to the
  vessel's controls through kRPC. `gnc-flight-control/config.py` defines `get_log_level`, which
  maps a `LOG_LEVEL` setting to a logging level; the service itself does not call it and
  logs at INFO (`gnc-flight-control/main.py:21`).
- The **mission-control UI** (`mission-control-ui/server.py`) lists mission log files. It
  proxies submit, status and abort requests to the sequencer and turns its failures into
  error responses.

Every status write in the system goes with a publication of the same record on
`mission_status`. The model states this once, as `RedisModel.Replay`: the store equals the
old store with every published status event applied in order. Each operation that writes
a status over a whole run or request (`Worker.ExecuteMission`, `SequencerApi.SubmitMission`,
`SequencerApi.AbortMission`) ensures `store == Replay(old store, what it published)`. The
single write `Worker.UpdateMissionStatus` ensures `store == Apply(old store, publication)` for
the one event it publishes, which is `Replay` of that one-event log.

Modules, one per file:

| file | module | models |
|---|---|---|
| wrappers.dfy | Wrappers | Option and Result |
| text.dfy | Text | Python's `str(n)` for the "i/n" progress text and status codes |
| missions.dfy | Missions | plans, commands, status records, channel names, status keys |
| redis_model.dfy | RedisModel | store, publish log, Celery queue, pub/sub subscription; `Replay` |
| worker.dfy | Worker | `update_mission_status`, `execute_mission`, and its specification `Execute` |
| worker_properties.dfy | WorkerProperties | what any run of `execute_mission` guarantees |
| http.dfy | Http | responses and their JSON bodies |
| sequencer_api.dfy | SequencerApi | `submit_mission`, `get_mission_status`, `abort_mission`, `health_check` |
| gnc_commands.dfy | GncCommands | `execute_command`'s effect on the vessel controls (`Dispatch`), the vessel |
| gnc_service.dfy | GncService | client registry, WebSocket handler, broadcast, `execute_command` |
| ui_server.dfy | MissionControlUi | log listing, proxy error shaping, UI health check |
| gnc_config.dfy | GncConfig | `get_log_level` |

The mission-sequencer tests import a `MissionSequencer` class from `main`
(mission-sequencer/tests/test_mission_sequencer.py:9) that no source file defines. The
model follows `worker.py` and `main.py`, which differ from what those tests expect:

- plans carry `flight_plan`, where the tests' plans carry `sequence`;
- commands are published on `gnc_commands`;
- there are no WAIT or WAIT_UNTIL_APOAPSIS commands and no EXECUTING_COMMAND status;
- an unknown command tag is forwarded like any other; it is the flight-control side that
  ignores it.

## Model

| member | source | states |
|---|---|---|
| Missions.StatusKey | mission-sequencer/worker.py:29 | the key is `mission:` + id + `:status`, with the id recoverable from a fixed position |
| Missions.StatusKeyInjective | mission-sequencer/main.py:67 | two missions never share a status key, so the duplicate check is per mission |
| Text.NatToDecimal | mission-sequencer/worker.py:53 | `str(n)` for the "i/n" progress text: decimal digits only, at least one, no leading zero |
| Text.DecimalRoundTrip | mission-sequencer/worker.py:53 | the decimal rendering of a number used in "Executing command i/n" reads back as that number |
| RedisModel.ReplayAppend | mission-sequencer/worker.py:29-30 | replaying two publication logs in turn is replaying their concatenation |
| RedisModel.ReplayIgnoresOtherChannels | mission-sequencer/worker.py:56 | publications that are not status events leave the store alone |
| RedisModel.LastStatusEventWins | mission-sequencer/worker.py:29-30 | after a log ending in a status event for a mission, the store holds that event's record |
| RedisModel.Subscription.GetMessage | mission-sequencer/worker.py:48 | a poll consumes at most one message: the oldest unread one, or none when none is waiting |
| Worker.ErrorText | mission-sequencer/worker.py:67 | `str(e)`: a missing key shows quoted (and is the only text that starts with a quote), the TypeError names the operand type, the OverflowError of converting an oversized delay to a float, and the ValueError and OverflowError of `time.sleep`, have their fixed texts |
| Worker.ErrorTextInjective | mission-sequencer/worker.py:67 | distinct exceptions give distinct texts, so the FAILED details identify the error |
| Worker.StepDelay | mission-sequencer/worker.py:59-60 | the pause is `delay_ms` when it is a non-negative number whose nanosecond count fits in 64 signed bits, 1000 ms when absent; a delay of magnitude at least 2^1024 - 2^970 raises the division's OverflowError "int too large to convert to float", any other delay outside the nanosecond range raises time.sleep's OverflowError (checked before the sign), an in-range negative one ValueError, a non-number TypeError |
| Worker.SleepRangeEdges | mission-sequencer/worker.py:59-60 | 10^309 ms and -(2^1024 - 2^970) ms fail in the division with "int too large to convert to float", one below that threshold reaches time.sleep's OverflowError, as does ±10^13 ms; the largest delay whose nanoseconds fit 64 signed bits is slept, and -1 ms raises ValueError |
| Worker.StepsBounds | mission-sequencer/worker.py:46-60 | the loop sleeps at most once per remaining command and once per command when it runs out; it polls the messages in arrival order, so the ones left unread are a suffix |
| Worker.Execute | mission-sequencer/worker.py:33-71 | a run leaves a suffix of the abort messages unread, sleeps at most once per command (never without `flight_plan`), and exactly once per command when it completes |
| Worker.UpdateMissionStatus | mission-sequencer/worker.py:23-31 | the record is stored under the mission's key and published with its id on `mission_status`; the store is the old store with that publication applied |
| Worker.RunStep | mission-sequencer/worker.py:47-60 | one loop pass does what `Step` describes: abort on a matching poll, else progress event, command, and the pause or the raised error |
| Worker.RunSteps | mission-sequencer/worker.py:46-60 | the loop publishes, sleeps, consumes and ends as `Steps` describes, and the store follows its status events |
| Worker.Finish | mission-sequencer/worker.py:62-68 | COMPLETED when the loop ran out, FAILED with "An error occurred: …" when a step raised (the error is re-raised), nothing more after an abort |
| Worker.ExecuteMission | mission-sequencer/worker.py:33-71 | a run's outcome, publications, pauses and unread abort messages are those of `Execute`; the store follows the publications; the subscription ends unsubscribed and closed; no subscription when `mission_id` is missing |
| WorkerProperties.MissingIdRaises | mission-sequencer/worker.py:38 | without `mission_id` the task raises before publishing anything |
| WorkerProperties.StatusTrail | mission-sequencer/worker.py:39-67 | a run opens with IN_PROGRESS "Starting mission execution.", closes with its terminal record, and in between only reports progress and forwards commands |
| WorkerProperties.StoredTerminalRecord | mission-sequencer/worker.py:62-67 | after a run the store holds COMPLETED, ABORTED or FAILED for the mission, matching the outcome |
| WorkerProperties.CommandsFollowPlan | mission-sequencer/worker.py:46-63 | forwarded commands are always a prefix of the plan, in order, and the whole plan exactly once when the mission completes |
| WorkerProperties.AbortedOnlyOnRequest | mission-sequencer/worker.py:48-51 | ABORTED is reported only after polling an abort message of type `message` whose data is this mission's id |
| WorkerProperties.CompletesWithoutAbort | mission-sequencer/worker.py:46-63 | with runnable commands and no matching abort among the messages polled, every command is forwarded once after its "Executing command i+1/n" event, each delay is slept, one message is consumed per command, and the run completes; non-matching messages are consumed and ignored |
| WorkerProperties.EmptyPlanCompletes | mission-sequencer/worker.py:46-63 | an empty plan forwards nothing, reads nothing from the abort channel and completes |
| WorkerProperties.AbortStopsAtRequest | mission-sequencer/worker.py:48-51 | the first matching abort, polled before command j, ends the run ABORTED "Mission aborted by operator." with exactly commands 0..j-1 forwarded |
| WorkerProperties.FailsAtFirstBadCommand | mission-sequencer/worker.py:53-68 | the first command without `command`, or with a bad delay, fails the run with that error; a command with a bad delay has already been forwarded |
| WorkerProperties.StepsWithoutAbort | mission-sequencer/worker.py:46-60 | the loop from any step on, with no matching abort polled, produces the reference log `Forwarded` |
| WorkerProperties.StepsUntilAbort | mission-sequencer/worker.py:46-51 | the loop stops at the first matching abort with ABORTED as its last event and the later messages unread |
| WorkerProperties.StepsUntilFailure | mission-sequencer/worker.py:53-68 | the loop stops at the first command it cannot run, with the right exception and publications |
| WorkerProperties.StepsCommands | mission-sequencer/worker.py:46-56 | the commands the loop forwards from step i are a prefix of the plan from i; all of them when it runs out |
| WorkerProperties.StepsAbortEvidence | mission-sequencer/worker.py:48-51 | the loop ends in an abort only if a polled message is an abort for this mission |
| WorkerProperties.StepsShape | mission-sequencer/worker.py:46-60 | the loop publishes only progress events and commands, plus a final ABORTED when aborted |
| WorkerProperties.ForwardedCommands | mission-sequencer/worker.py:53-56 | the reference log forwards exactly the plan's commands in order |
| SequencerApi.Submission | mission-sequencer/main.py:40-80 | at most one plan is queued and a QUEUED event is published exactly with it; a queued plan is the submitted one and the response is then 202 |
| SequencerApi.SubmissionAdmits | mission-sequencer/main.py:40-80 | a plan is accepted (202 with its id) exactly when every guard passes; only then is it queued once and its QUEUED record stored and published |
| SequencerApi.SubmissionRejections | mission-sequencer/main.py:45-68 | an empty payload gives 400, a missing schema 500, a schema violation 400 with details, and a known id 409; the code is always 202, 400, 409 or 500 |
| SequencerApi.SubmitMission | mission-sequencer/main.py:40-80 | the handler responds, queues, stores and publishes as `Submission` says |
| SequencerApi.GetMissionStatus | mission-sequencer/main.py:82-91 | 200 with the stored record verbatim, or 404 "Mission not found"; nothing is written |
| SequencerApi.Abort | mission-sequencer/main.py:93-111 | nothing is queued; the response is 200, and something is published, exactly when the mission is known |
| SequencerApi.AbortEffect | mission-sequencer/main.py:93-111 | an unknown id gives 404 and publishes nothing; a known one publishes the id on `mission_abort_commands` and overwrites any status with ABORT_REQUESTED |
| SequencerApi.AbortReachesWorker | mission-sequencer/main.py:102 | the published abort is received as a message the mission's own worker treats as an abort, and no other mission's worker does |
| SequencerApi.AbortMission | mission-sequencer/main.py:93-111 | the handler responds, stores and publishes as `Abort` says |
| SequencerApi.HealthCheck | mission-sequencer/main.py:113-131 | 200 "ok" iff the ping succeeds, 503 "degraded" on a connection error, and Flask's 500 on any other ping error |
| GncCommands.ToFloat | gnc-flight-control/main.py:214 | Python's `float()` on a JSON value: numbers and booleans convert, text gives its parsed value or raises ValueError when it does not parse, null and containers raise TypeError |
| GncCommands.Truthy | gnc-flight-control/main.py:218 | Python's `bool()`: on numbers and booleans it is true exactly when `float()` is not zero; text is true exactly when non-empty; null is false |
| GncCommands.Lookup | gnc-flight-control/main.py:209 | `params.get` uses the default when the key or `parameters` is missing, and raises when `parameters` is not an object |
| GncCommands.Dispatch | gnc-flight-control/main.py:212-233 | each command changes only its own controls, staging advances by exactly one and only on ACTIVATE_NEXT_STAGE, and an unknown or missing tag changes nothing |
| GncCommands.ThrottleCommand | gnc-flight-control/main.py:213-214 | SET_THROTTLE sets the throttle to `value` (0.0 when absent); a failed conversion is caught and changes nothing |
| GncCommands.SwitchCommands | gnc-flight-control/main.py:217-220 | SET_SAS and SET_RCS set their switch to the truth of `value` (false when absent) |
| GncCommands.StageCommand | gnc-flight-control/main.py:215-216 | ACTIVATE_NEXT_STAGE stages once, whatever the parameters |
| GncCommands.AutopilotCommand | gnc-flight-control/main.py:221-227 | the autopilot is always engaged; pitch and heading (90 when absent) are targeted only when both convert |
| GncService.ListOf | gnc-flight-control/main.py:91 | the snapshot list holds every client exactly once |
| GncService.SendEach | gnc-flight-control/main.py:92-96 | each listed client gets exactly one attempt to send the message, and a failed send does not stop the rest |
| GncService.FlightControl.RegisterClient | gnc-flight-control/main.py:71-74 | the client is added to the set |
| GncService.FlightControl.UnregisterClient | gnc-flight-control/main.py:76-79 | the client is removed; it raises exactly when the client was not in the set |
| GncService.FlightControl.WebsocketHandler | gnc-flight-control/main.py:108-126 | the set ends as it was minus the client, whatever ends the wait; only a cancellation propagates |
| GncService.FlightControl.BroadcastTelemetry | gnc-flight-control/main.py:81-106 | each client gets exactly one send of the same message, a failure neither stops the others nor removes the client, and an empty set means no sends |
| GncService.FlightControl.ExecuteCommand | gnc-flight-control/main.py:202-233 | without a connection or vessel nothing changes; otherwise the controls change as `Dispatch` says |
| MissionControlUi.MissionLogs | mission-control-ui/server.py:122 | the comprehension keeps exactly the `mission_*.log` entries, each as often as it occurs |
| MissionControlUi.Insert | mission-control-ui/server.py:123 | inserting into a descending listing keeps it descending and adds exactly that name |
| MissionControlUi.SortDescending | mission-control-ui/server.py:123 | the result is descending in Python's string order and a permutation of the input |
| MissionControlUi.DescendingUnique | mission-control-ui/server.py:123 | two descending permutations of the same names are equal, so the listing is the one `sorted(reverse=True)` gives |
| MissionControlUi.LexLeFirstDifference | mission-control-ui/server.py:123 | the string order behind `sorted`: a prefix comes first, otherwise the first differing character decides |
| MissionControlUi.LexTotal | mission-control-ui/server.py:123 | Python's string order is total |
| MissionControlUi.LexTransitive | mission-control-ui/server.py:123 | Python's string order is transitive |
| MissionControlUi.LexAntisymmetric | mission-control-ui/server.py:123 | Python's string order is antisymmetric |
| MissionControlUi.ListMissionLogs | mission-control-ui/server.py:115-126 | a missing directory lists nothing, an unreadable one gives 500; otherwise only and all the `mission_*.log` entries, descending |
| MissionControlUi.ListingDetermined | mission-control-ui/server.py:122-123 | any descending arrangement of the qualifying entries is the listing |
| MissionControlUi.ProxyStatus | mission-control-ui/server.py:51-84 | successes pass through; an unreachable sequencer gives 502 "Failed to connect to Mission Sequencer: …"; an error reply keeps its code |
| MissionControlUi.ReplyErrorMessage | mission-control-ui/server.py:66-74 | the message starts with "Mission Sequencer error: " and the `error` when the body has one, otherwise with "Mission Sequencer responded with error: " and digits that read back as the code; it ends with " - Details: " and the `details` when the body has them |
| MissionControlUi.ErrorReplyMessage | mission-control-ui/server.py:63-76 | the status proxy's error message is, in full, the `error` message or the code message, followed by " - Details: …" exactly when the body has `details` |
| MissionControlUi.ProxyForward | mission-control-ui/server.py:40-49 | submit: successes pass through; every failure becomes 502 "Failed to connect to Mission Sequencer" |
| MissionControlUi.ProxiesCompared | mission-control-ui/server.py:86-111 | abort shapes failures like submit; only the status proxy passes the sequencer's error code on |
| MissionControlUi.HealthUi | mission-control-ui/server.py:189-206 | always 200, "ok" iff a Redis client exists and its ping succeeds; Flask's 500 on a ping error other than a connection error |
| GncConfig.LogLevel | gnc-flight-control/config.py:35-44 | the level is always one of the five, the named one when the upper-cased setting names a level, INFO otherwise |
| GncConfig.UpperIdempotent | gnc-flight-control/config.py:44 | upper-casing twice is upper-casing once |
| GncConfig.CaseInsensitive | gnc-flight-control/config.py:44 | a level name in any mix of cases resolves to that level |
| GncConfig.LevelOrigins | gnc-flight-control/config.py:37-44 | each level except INFO comes only from its own name; INFO also from every unrecognised setting |

## Left out

- Redis, Celery, Flask, websockets, kRPC and psutil are abstract state.
  - Their connection set-up, reconnection and I/O errors are not modelled, except the ping outcome in the health checks.
  - The worker's and handlers' Redis calls always succeed.
- JSON encoding and decoding are not modelled. Records and messages are kept as data rather than text.
  - The sequencer's payload is either nothing usable, a falsy value, or a plan object. A truthy JSON value that is not an object is not modelled.
  - Flask's own rejection of a request body that is not JSON is not modelled.
  - A `flight_plan` that is not a list, or a command that is not an object, is not modelled.
- Timing is not modelled. The worker's sleeps are returned as a sequence of millisecond pauses.
  - `delay_ms` is an integer number of milliseconds; fractional delays and float division are not modelled.
  - Worker.StepDelay: the float-conversion threshold 2^1024 - 2^970 of `delay_ms / 1000.0` is modelled exactly, but the 64-bit nanosecond range of `time.sleep` is checked on the exact product `delay_ms * 10^6`; the rounding of `delay_ms / 1000.0` and of the float-to-nanosecond conversion near ±2^63 is not modelled, and the overflow text is the one CPython versions before 3.13 print.
  - Floats are reals: no rounding, NaN or infinities.
- Concurrency is not modelled.
  - Abort messages are given to the subscription up front, in arrival order, and are not interleaved with the run.
  - The `asyncio.gather` fan-out is a sequential loop over the snapshot list, whose order is left open.
  - The race between `execute_mission.delay` and the QUEUED write is not modelled.
- Logging is not modelled. This includes the websocket handler's per-exception log messages and the request payload the UI proxies log.
- Schema loading from disk is a boolean. `jsonschema.validate` is a function parameter returning the error text or nothing.
- Sequencer HTTP responses to the UI are JSON objects with string members, or text that does not parse. Other JSON values are not modelled.
- A successful sequencer reply whose body does not parse is treated as a `requests` exception without a response, as in requests 2.27 and later.
- The `MissionSequencer` class that the mission-sequencer tests import, with its `sequence` plans, WAIT and WAIT_UNTIL_APOAPSIS commands, EXECUTING_COMMAND status, `stop()` and queue retry, is not part of this model: no source file defines it.
- `check_resource_usage`, `initialize_krpc`, the Redis subscriber and telemetry loops, `redis_pubsub_listener`, `analyze_mission` and static file serving are not modelled.
- GncConfig.UpperChar: models `str.upper` only for characters whose upper case is one ASCII letter (ASCII letters, dotless i, long s). Characters it leaves unchanged cannot spell a level name either way.
- kRPC errors (`RPCError`) raised by the vessel are not modelled. Only errors from parameter conversion are caught in the model.
