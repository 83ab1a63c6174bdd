/**
 The commands the desktop shell exposes: each calls the service once, copies a
 health report into the response record field for field, and flattens any
 error to its display text.
 */
module Commands {
  import opened Results
  import opened Errors
  import opened Ports
  import opened Engine
  import Infrastructure
  import Services

  /** The caller-facing health record. */
  datatype DatabaseHealthResponse = DatabaseHealthResponse(connected: bool, message: string)

  /** `From<DatabaseHealth> for DatabaseHealthResponse`. */
  function FromHealth(h: DatabaseHealth): (r: DatabaseHealthResponse)
    ensures r.connected == h.connected
    ensures r.message == h.message
  {
    DatabaseHealthResponse(h.connected, h.message)
  }

  /** The reverse copy, used to show the conversion loses nothing. */
  function ToHealth(r: DatabaseHealthResponse): (h: DatabaseHealth)
    ensures h.connected == r.connected
    ensures h.message == r.message
  {
    DatabaseHealth(r.connected, r.message)
  }

  lemma HealthConversionRoundTrip(h: DatabaseHealth, r: DatabaseHealthResponse)
    ensures ToHealth(FromHealth(h)) == h
    ensures FromHealth(ToHealth(r)) == r
  {
  }

  /** `map_err(|e| e.to_string())`: successes pass through, errors become their display text. */
  function Flatten<T>(result: Result<T, DatabaseError>): (r: Result<T, string>)
    ensures r.Ok? <==> result.Ok?
    ensures r.Ok? ==> r.value == result.value
    ensures r.Err? ==> r.error == Display(result.error)
  {
    match result
    case Ok(v) => Ok(v)
    case Err(e) => Err(Display(e))
  }

  /** The flattened text still determines the structured error. */
  lemma FlattenKeepsErrorKind<T>(result: Result<T, DatabaseError>)
    requires result.Err?
    ensures Flatten(result).Err?
    ensures Parse(Flatten(result).error) == Some(result.error)
  {
    ParseDisplay(result.error);
  }

  /** `db_connect`. */
  function DbConnect(s: Services.DatabaseService, outcome: OpenOutcome): (r: (Services.DatabaseService, Result<(), string>))
    ensures r.0 == Services.Connect(s, outcome).0
    ensures r.1.Ok? <==> Services.Connect(s, outcome).1.Ok?
    ensures r.1.Err? ==> r.1.error == Display(Services.Connect(s, outcome).1.error)
  {
    var (t, result) := Services.Connect(s, outcome);
    (t, Flatten(result))
  }

  /** `db_disconnect`: the service's result, flattened; the adapter never fails to disconnect. */
  function DbDisconnect(s: Services.DatabaseService): (r: (Services.DatabaseService, Result<(), string>))
    ensures r.0 == Services.Disconnect(s).0
    ensures r.1 == Flatten(Services.Disconnect(s).1)
    ensures r.0.adapter.slot.Empty? && r.1 == Ok(())
  {
    var (t, result) := Services.Disconnect(s);
    (t, Flatten(result))
  }

  /** `.map(DatabaseHealthResponse::from).map_err(|e| e.to_string())` on a health result. */
  function ToResponse(result: Result<DatabaseHealth, DatabaseError>): (r: Result<DatabaseHealthResponse, string>)
    ensures r.Ok? <==> result.Ok?
    ensures r.Ok? ==> r.value == FromHealth(result.value)
    ensures r.Err? ==> r.error == Display(result.error)
  {
    match result
    case Ok(h) => Ok(FromHealth(h))
    case Err(e) => Err(Display(e))
  }

  /** `db_health`: the service's health report converted for the caller; it never fails. */
  function DbHealth(s: Services.DatabaseService): (r: Result<DatabaseHealthResponse, string>)
    ensures r == ToResponse(Services.GetHealth(s))
    ensures r.Ok? && (r.value.connected <==> s.adapter.slot.Open?)
  {
    ToResponse(Services.GetHealth(s))
  }

  /** What the caller sees for each health state. */
  lemma DbHealthReflectsState(s: Services.DatabaseService)
    ensures s.adapter.slot.Open? ==> DbHealth(s) == Ok(DatabaseHealthResponse(true, "Database connection is healthy"))
    ensures s.adapter.slot.Empty? ==> DbHealth(s) == Ok(DatabaseHealthResponse(false, "Database is not connected"))
  {
  }

  /** The exact text a caller receives when the engine fails to open. */
  lemma DbConnectFailureText(s: Services.DatabaseService, outcome: OpenOutcome)
    requires s.adapter.slot.Empty?
    ensures outcome.CreateFail? ==>
              DbConnect(s, outcome) == (s, Err(ConnectionFailedLabel + Infrastructure.CreateFailedText + outcome.reason))
    ensures outcome.NsFail? ==>
              DbConnect(s, outcome) == (s, Err(ConnectionFailedLabel + Infrastructure.NamespaceFailedText + outcome.reason))
  {
    if !outcome.Opened? {
      var detail := if outcome.CreateFail? then Infrastructure.CreateFailedText else Infrastructure.NamespaceFailedText;
      assert ConnectionFailedLabel + (detail + outcome.reason) == ConnectionFailedLabel + detail + outcome.reason;
    }
  }
}
