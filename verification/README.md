# IdeaNet database connection lifecycle, in Dafny

This project models the database subsystem of the IdeaNet desktop application's
Rust backend. At its centre is `SurrealAdapter`, which owns one lock-protected
slot: either empty, or holding the single open SurrealDB handle. Three
operations act on the slot:

- `connect` opens a handle only when the slot is empty. If the engine fails,
  the slot is left alone.
- `disconnect` always empties the slot.
- `health_check` reports whether a handle is held.

Three thin layers sit on top:

- `DatabaseService` passes each call straight through.
- The `db_connect`, `db_disconnect` and `db_health` commands convert health reports
  and flatten errors to their display text.
- `DatabaseError` supplies that display text: a fixed label followed by the payload.

Every adapter operation holds the adapter's `tokio` mutex for its whole body.
So concurrent calls take effect one whole call at a time, in some order. The
model therefore treats each operation as a pure transition
`(adapter, input) -> (adapter', result)`. A sequence of such calls (`Lifecycle.Run`)
stands for any interleaving of concurrent callers.

The engine is opaque. Each open attempt is an `OpenOutcome` parameter with one
of three values:

- `CreateFail(reason)`: creating the in-memory engine failed.
- `NsFail(reason)`: selecting namespace `ideanet` / database `main` failed.
- `Opened(handle)`: both steps succeeded.

Counters in `Lifecycle.Trace` stand in for a counting stub engine. They count
open attempts, handles stored into the slot and handles dropped from it.

Files and modules:

- `results.dfy` (`Results`): Rust's `Result` and `Option`.
- `errors.dfy` (`Errors`): `DatabaseError`, its `Display`, and a `Parse` inverse.
- `ports.dfy` (`Ports`): the `DatabaseHealth` record.
- `engine.dfy` (`Engine`): `Handle` and `OpenOutcome`.
- `infrastructure.dfy` (`Infrastructure`): the adapter.
- `lifecycle.dfy` (`Lifecycle`): sequences of adapter calls and many concurrent connects.
- `services.dfy` (`Services`): `DatabaseService`.
- `commands.dfy` (`Commands`): the three commands and `DatabaseHealthResponse`.

Two facts about the source shape what the model promises:

- `DatabaseError` has a `ConfigurationError` kind, but `connect` never returns
  it. It always opens the in-memory engine and never reads `db_path`
  (ideanet/src-tauri/src/infrastructure/database.rs:50). So in the model,
  `connect` fails only with `ConnectionFailed`, which `Infrastructure.Connect`
  states.
- `disconnect` (database.rs:66) and `health_check` (database.rs:73-80) always
  return `Ok`, so the model states `Ok` for both. The commands' error
  flattening is still modelled in general by `Commands.Flatten` and
  `Commands.ToResponse`, which accept any result.

## Model

| member | source | states |
|---|---|---|
| Errors.Display | ideanet/src-tauri/src/domain/errors.rs:3-13 | Each of the three kinds displays as its own fixed label ("Connection failed: ", "Database operation failed: ", "Configuration error: "), followed by the payload verbatim |
| Errors.LabelsDisjoint | ideanet/src-tauri/src/domain/errors.rs:5-12 | Text that starts with one kind's label starts with no other kind's label |
| Errors.ParseDisplay | ideanet/src-tauri/src/domain/errors.rs:3-13 | Display text parses back to the same kind and payload, so flattening to a string loses nothing |
| Errors.DisplayParse | ideanet/src-tauri/src/domain/errors.rs:3-13 | Any text that parses is exactly the display of the error it parses to |
| Errors.DisplayInjective | ideanet/src-tauri/src/domain/errors.rs:3-13 | Two errors with the same display text are the same error |
| Infrastructure.New | ideanet/src-tauri/src/infrastructure/database.rs:16-21 | A new adapter has an empty slot and keeps the configured path |
| Infrastructure.NewIsNotConnected | ideanet/src-tauri/src/infrastructure/database.rs:16-21 | A new adapter reports {false, "Database is not connected"} |
| Infrastructure.Connect | ideanet/src-tauri/src/infrastructure/database.rs:41-61 | When Open, returns Ok and changes nothing. When Empty, a successful open stores its handle and returns Ok. A create failure or a namespace failure returns ConnectionFailed with the matching text and leaves the adapter unchanged. Ok holds exactly when the adapter ends Open |
| Infrastructure.Disconnect | ideanet/src-tauri/src/infrastructure/database.rs:63-67 | Whatever the prior state, the slot ends Empty and the call returns Ok |
| Infrastructure.HealthCheck | ideanet/src-tauri/src/infrastructure/database.rs:69-82 | Never an error. connected is true exactly when Open. The message is "Database connection is healthy" when Open and "Database is not connected" when Empty |
| Infrastructure.HealthMessageDeterminesState | ideanet/src-tauri/src/infrastructure/database.rs:72-80 | The two health messages differ, so the message alone tells whether a handle is held |
| Infrastructure.ConnectWhenOpenIgnoresEngine | ideanet/src-tauri/src/infrastructure/database.rs:45-47 | While Open, the engine outcome does not affect connect, and the held handle is kept |
| Infrastructure.ConnectIdempotent | ideanet/src-tauri/src/infrastructure/database.rs:44-60 | After a successful connect, a second connect returns Ok and changes nothing |
| Infrastructure.DisconnectIdempotent | ideanet/src-tauri/src/infrastructure/database.rs:63-67 | Disconnecting twice equals disconnecting once |
| Infrastructure.FailedConnectLeavesNoResidue | ideanet/src-tauri/src/infrastructure/database.rs:50-59 | After a failed open, health reports not connected, and a retry with a successful engine ends Open |
| Lifecycle.Run | ideanet/src-tauri/src/infrastructure/database.rs:41-82 | A call sequence gives one reply per call and keeps the path. Handles stored never exceed engine attempts, and attempts never exceed calls |
| Lifecycle.HandleBalance | ideanet/src-tauri/src/infrastructure/database.rs:45-65 | Over any call sequence: handles held before + handles stored = handles held after + handles dropped. A handle counts as stored whenever the slot ends up holding a handle it did not hold before, and as dropped only when the slot is emptied. So the balance fails for any connect that replaces a held handle |
| Lifecycle.AtMostOneLiveHandle | ideanet/src-tauri/src/infrastructure/database.rs:11-11 | From an empty adapter, handles stored minus handles dropped is the number now held (0 or 1), and stored is at most dropped + 1. Storing counts every new handle placed in the slot, including one that would replace a held handle, so no second handle is stored before the first is dropped |
| Lifecycle.RunAppend | ideanet/src-tauri/src/infrastructure/database.rs:42-70 | Running two call sequences one after the other is the same as running them concatenated, for state, replies and all counters |
| Lifecycle.ReplyOnPriorState | ideanet/src-tauri/src/infrastructure/database.rs:42-70 | Each call's reply is what that call gives on the state left by all earlier calls (the calls are linearised by the lock) |
| Lifecycle.HealthReflectsState | ideanet/src-tauri/src/infrastructure/database.rs:69-82 | Anywhere in a sequence, a health call succeeds and reports connected exactly when the earlier calls left the adapter Open |
| Lifecycle.ErrorsOnlyFromOpenAttempts | ideanet/src-tauri/src/infrastructure/database.rs:41-82 | An error reply comes only from a connect whose engine attempt failed while the slot was Empty |
| Lifecycle.RoundTrip | ideanet/src-tauri/src/infrastructure/database.rs:41-82 | Connect, health, disconnect, health, connect (engine succeeding) replies Ok, healthy, Ok, not connected, Ok, and ends Open with the second handle |
| Lifecycle.ConnectAll | ideanet/src-tauri/src/infrastructure/database.rs:41-61 | For many connects linearised by the lock: from Open, all succeed and the engine is never asked. From Empty, calls before the first successful outcome fail with their engine error, and every later call succeeds. The engine is asked exactly up to and including that first success, and the adapter ends holding that handle. |
| Lifecycle.ConnectsEndWithIsRun | ideanet/src-tauri/src/infrastructure/database.rs:41-61 | Any final adapter, results and attempt count that meet `ConnectAll`'s contract are exactly those of `Run` on the same connect calls, so the two definitions of linearised connects agree |
| Lifecycle.ConcurrentConnectsOpenOnce | ideanet/src-tauri/src/infrastructure/database.rs:41-61 | Many connects on an Empty adapter whose engine succeeds make exactly one open attempt and store exactly one handle (the first caller's); every caller gets Ok |
| Lifecycle.RunConnectsFromOpen | ideanet/src-tauri/src/infrastructure/database.rs:45-47 | Any run of connect calls on an Open adapter leaves it unchanged, makes no engine attempt, and every call replies Ok |
| Lifecycle.RunConnectsFromEmpty | ideanet/src-tauri/src/infrastructure/database.rs:41-61 | A run of connect calls on an Empty adapter: the calls before the first successful outcome reply with their engine error, and later calls reply Ok. The engine is asked up to and including that success, and the adapter ends holding that handle (or unchanged if no outcome succeeds) |
| Services.Connect | ideanet/src-tauri/src/application/services/database.rs:15-17 | Returns exactly the adapter's connect result and state, errors included; Ok holds exactly when the adapter ends Open; an error changes nothing |
| Services.Disconnect | ideanet/src-tauri/src/application/services/database.rs:19-21 | Returns exactly the adapter's disconnect result and state: Ok, with the slot Empty |
| Services.GetHealth | ideanet/src-tauri/src/application/services/database.rs:23-25 | Returns exactly the adapter's health report, which succeeds and reports connected exactly when Open |
| Services.ServiceRunMatchesAdapter | ideanet/src-tauri/src/application/services/database.rs:6-25 | The service holds only the adapter: any call sequence through the service gives the same replies and the same final adapter as the same sequence on the adapter directly |
| Commands.FromHealth | ideanet/src-tauri/src/commands/database.rs:14-21 | The response copies connected and message verbatim |
| Commands.HealthConversionRoundTrip | ideanet/src-tauri/src/commands/database.rs:14-21 | Converting a health record to a response and back (and the reverse) is the identity |
| Commands.Flatten | ideanet/src-tauri/src/commands/database.rs:27-30 | Ok stays Ok with the same value, and an error becomes Err(its display text) |
| Commands.FlattenKeepsErrorKind | ideanet/src-tauri/src/commands/database.rs:30-30 | The flattened text of an error parses back to that error |
| Commands.DbConnect | ideanet/src-tauri/src/commands/database.rs:23-31 | Ok exactly when the service's connect succeeds, otherwise Err(display text of the service's error), with the service's state change |
| Commands.DbDisconnect | ideanet/src-tauri/src/commands/database.rs:33-41 | The flattened service result, which is always Ok with the slot Empty |
| Commands.ToResponse | ideanet/src-tauri/src/commands/database.rs:47-51 | A health result maps to Ok(the converted response) on success and to Err(display text) on failure |
| Commands.DbHealth | ideanet/src-tauri/src/commands/database.rs:43-52 | The converted service health result. It is always Ok, and connected holds exactly when the adapter is Open |
| Commands.DbHealthReflectsState | ideanet/src-tauri/src/commands/database.rs:43-52 | The caller sees {true, "Database connection is healthy"} when Open and {false, "Database is not connected"} when Empty |
| Commands.DbConnectFailureText | ideanet/src-tauri/src/commands/database.rs:24-31 | From Empty, a create failure reaches the caller as "Connection failed: Failed to create database connection: " + reason, and a namespace failure as "Connection failed: Failed to set namespace/database: " + reason, with no state change |

## Left out

- `SurrealAdapter::get_db_path` (ideanet/src-tauri/src/infrastructure/database.rs:23-36) is left out. It reads the `APPDATA` environment variable, creates directories and joins OS paths. `connect` never calls it.
- `db_path` is kept as a field that no operation reads, because `connect` always opens the in-memory engine.
- The SurrealDB engine (`Surreal::new::<Mem>`, `use_ns("ideanet").use_db("main")`) is reduced to the `OpenOutcome` parameter. When namespace selection fails, the engine instance that was created is dropped at once. The model does not count it as a handle, because it never reaches the slot.
- The `Arc<Mutex<…>>`, `async` and `await` are not modelled. Each operation is one atomic step, because the lock covers each whole body. Lock fairness and waiting are not modelled.
- `DatabaseService` depends on `dyn DatabasePort` in the source. The model fixes that port to `SurrealAdapter`, the only implementation. `DatabaseService::new` is the datatype constructor.
- ideanet/src-tauri/src/application/ports/database.rs is used only for its types: `DatabaseHealth` becomes `Ports.DatabaseHealth`, and the `DatabasePort` trait becomes the adapter's functions.
- The following are not part of this model: `lib.rs` (application wiring and the unrelated `greet` command), the React hook `useDatabase.ts` and the `DatabaseStatus.tsx` component (UI state, IPC and styling), and serde serialisation of responses.
- `Commands.DbDisconnect` and `Commands.DbHealth` state `Ok` outright, because this adapter never fails at those operations. Their error branches are stated through `Commands.Flatten` and `Commands.ToResponse`, which take any result.
