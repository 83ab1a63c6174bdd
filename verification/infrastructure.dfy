/**
 The SurrealDB adapter: one slot that is either empty or holds the single open
 handle. Every operation holds the adapter's lock for its whole body, so each
 is modelled as one atomic transition from the adapter before the call to the
 adapter after it, paired with the call's result.
 */
module Infrastructure {
  import opened Results
  import opened Errors
  import opened Ports
  import opened Engine

  datatype Slot = Empty | Open(handle: Handle)

  /** `db_path` is kept but never read: connecting always opens the in-memory engine. */
  datatype SurrealAdapter = SurrealAdapter(slot: Slot, dbPath: string)

  const CreateFailedText := "Failed to create database connection: "
  const NamespaceFailedText := "Failed to set namespace/database: "
  const HealthyMessage := "Database connection is healthy"
  const NotConnectedMessage := "Database is not connected"

  /** A freshly constructed adapter holds no connection. */
  function New(dbPath: string): (a: SurrealAdapter)
    ensures a.slot.Empty?
    ensures a.dbPath == dbPath
  {
    SurrealAdapter(Empty, dbPath)
  }

  /** The error a failed open attempt is reported as. */
  function OpenError(outcome: OpenOutcome): DatabaseError
    requires !outcome.Opened?
  {
    match outcome
    case CreateFail(reason) => ConnectionFailed(CreateFailedText + reason)
    case NsFail(reason) => ConnectionFailed(NamespaceFailedText + reason)
  }

  /** True when `connect` on `a` would ask the engine for a new handle. */
  predicate AsksEngine(a: SurrealAdapter)
  {
    a.slot.Empty?
  }

  /**
   `connect`: a no-op success when a handle is already held; otherwise one
   open attempt, whose handle is stored only if the attempt succeeds.
   */
  function Connect(a: SurrealAdapter, outcome: OpenOutcome): (r: (SurrealAdapter, Result<(), DatabaseError>))
    ensures r.0.dbPath == a.dbPath
    ensures a.slot.Open? ==> r == (a, Ok(()))
    ensures a.slot.Empty? && outcome.Opened? ==> r.0.slot == Open(outcome.handle) && r.1 == Ok(())
    ensures a.slot.Empty? && outcome.CreateFail? ==>
              r == (a, Err(ConnectionFailed("Failed to create database connection: " + outcome.reason)))
    ensures a.slot.Empty? && outcome.NsFail? ==>
              r == (a, Err(ConnectionFailed("Failed to set namespace/database: " + outcome.reason)))
    ensures r.1.Ok? <==> r.0.slot.Open?
    ensures r.1.Err? ==> r.0 == a && r.1.error.ConnectionFailed?
  {
    if a.slot.Open? then
      (a, Ok(()))
    else
      match outcome
      case Opened(h) => (a.(slot := Open(h)), Ok(()))
      case _ => (a, Err(OpenError(outcome)))
  }

  /** `disconnect`: drops whatever is held and always succeeds. */
  function Disconnect(a: SurrealAdapter): (r: (SurrealAdapter, Result<(), DatabaseError>))
    ensures r.0.slot.Empty?
    ensures r.0.dbPath == a.dbPath
    ensures r.1.Ok?
  {
    (a.(slot := Empty), Ok(()))
  }

  /** `health_check`: reads the slot; never fails and cannot change the adapter. */
  function HealthCheck(a: SurrealAdapter): (r: Result<DatabaseHealth, DatabaseError>)
    ensures r.Ok?
    ensures r.value.connected <==> a.slot.Open?
    ensures r.value.message == if a.slot.Open? then "Database connection is healthy" else "Database is not connected"
  {
    match a.slot
    case Open(_) => Ok(DatabaseHealth(true, HealthyMessage))
    case Empty => Ok(DatabaseHealth(false, NotConnectedMessage))
  }

  /** A new adapter reports that it is not connected. */
  lemma NewIsNotConnected(dbPath: string)
    ensures HealthCheck(New(dbPath)) == Ok(DatabaseHealth(false, "Database is not connected"))
  {
  }

  /** The health message alone tells whether a connection is open. */
  lemma HealthMessageDeterminesState(a: SurrealAdapter, b: SurrealAdapter)
    requires HealthCheck(a).value.message == HealthCheck(b).value.message
    ensures a.slot.Open? <==> b.slot.Open?
  {
  }

  /** While a handle is held, `connect` never consults the engine and keeps that handle. */
  lemma ConnectWhenOpenIgnoresEngine(a: SurrealAdapter, o1: OpenOutcome, o2: OpenOutcome)
    requires !AsksEngine(a)
    ensures Connect(a, o1) == Connect(a, o2)
    ensures Connect(a, o1).0.slot == a.slot
  {
  }

  /** Connecting twice is the same as connecting once, whatever the second attempt would have done. */
  lemma ConnectIdempotent(a: SurrealAdapter, o1: OpenOutcome, o2: OpenOutcome)
    requires Connect(a, o1).1.Ok?
    ensures Connect(Connect(a, o1).0, o2) == (Connect(a, o1).0, Ok(()))
  {
  }

  /** Disconnecting twice is the same as disconnecting once. */
  lemma DisconnectIdempotent(a: SurrealAdapter)
    ensures Disconnect(Disconnect(a).0) == Disconnect(a)
  {
  }

  /** A failed connect leaves nothing behind: health says disconnected and a retry can still open. */
  lemma FailedConnectLeavesNoResidue(a: SurrealAdapter, failed: OpenOutcome, retry: OpenOutcome)
    requires a.slot.Empty? && !failed.Opened? && retry.Opened?
    ensures HealthCheck(Connect(a, failed).0).value.connected == false
    ensures Connect(Connect(a, failed).0, retry) == (a.(slot := Open(retry.handle)), Ok(()))
  {
  }
}
