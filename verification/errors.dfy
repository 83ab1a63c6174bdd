/**
 The database error taxonomy of the domain layer (`DatabaseError`) and the
 text its `Display` implementation produces: a fixed label per kind followed
 by the payload. `Parse` is the model's inverse of `Display`; the lemmas show
 that the flattened text still determines the kind and the payload.
 */
module Errors {
  import opened Results

  /** Exactly three kinds, each carrying one string payload. */
  datatype DatabaseError =
    | ConnectionFailed(payload: string)
    | OperationFailed(payload: string)
    | ConfigurationError(payload: string)

  const ConnectionFailedLabel := "Connection failed: "
  const OperationFailedLabel := "Database operation failed: "
  const ConfigurationErrorLabel := "Configuration error: "

  /** The fixed text that precedes the payload of each kind. */
  function Label(e: DatabaseError): string
  {
    match e
    case ConnectionFailed(_) => ConnectionFailedLabel
    case OperationFailed(_) => OperationFailedLabel
    case ConfigurationError(_) => ConfigurationErrorLabel
  }

  predicate StartsWith(s: string, prefix: string)
  {
    |prefix| <= |s| && s[..|prefix|] == prefix
  }

  /** The message `to_string()` yields for an error. */
  function Display(e: DatabaseError): (s: string)
    ensures e.ConnectionFailed? ==> s == "Connection failed: " + e.payload
    ensures e.OperationFailed? ==> s == "Database operation failed: " + e.payload
    ensures e.ConfigurationError? ==> s == "Configuration error: " + e.payload
    ensures StartsWith(s, Label(e)) && s[|Label(e)|..] == e.payload
  {
    Label(e) + e.payload
  }

  /** Recovers an error from its displayed text, if the text has one of the three labels. */
  function Parse(s: string): (r: Option<DatabaseError>)
    ensures r.Some? ==> StartsWith(s, Label(r.value))
  {
    if StartsWith(s, ConnectionFailedLabel) then
      Some(ConnectionFailed(s[|ConnectionFailedLabel|..]))
    else if StartsWith(s, OperationFailedLabel) then
      Some(OperationFailed(s[|OperationFailedLabel|..]))
    else if StartsWith(s, ConfigurationErrorLabel) then
      Some(ConfigurationError(s[|ConfigurationErrorLabel|..]))
    else
      None
  }

  /** No label is a prefix of a different kind's label, so text cannot carry two labels. */
  lemma LabelsDisjoint(e: DatabaseError, s: string)
    requires StartsWith(s, Label(e))
    ensures e.ConnectionFailed? <==> StartsWith(s, ConnectionFailedLabel)
    ensures e.OperationFailed? <==> StartsWith(s, OperationFailedLabel)
    ensures e.ConfigurationError? <==> StartsWith(s, ConfigurationErrorLabel)
  {
    // The labels differ at index 0 (Connection/Configuration vs Database) or index 3 ('n' vs 'f').
    assert s[0] == Label(e)[0] && s[3] == Label(e)[3];
  }

  /** Parsing the displayed text gives back the error: display loses no information. */
  lemma ParseDisplay(e: DatabaseError)
    ensures Parse(Display(e)) == Some(e)
  {
    LabelsDisjoint(e, Display(e));
  }

  /** Conversely, any text that parses is exactly the display of what it parses to. */
  lemma DisplayParse(s: string)
    requires Parse(s).Some?
    ensures Display(Parse(s).value) == s
  {
    var e := Parse(s).value;
    assert s == s[..|Label(e)|] + s[|Label(e)|..];
  }

  /** Different errors display differently. */
  lemma DisplayInjective(e1: DatabaseError, e2: DatabaseError)
    requires Display(e1) == Display(e2)
    ensures e1 == e2
  {
    ParseDisplay(e1);
    ParseDisplay(e2);
  }
}
