/**
 The database service: it holds nothing but the adapter and passes each call
 straight through, with no retry and no change to results or errors.
 */
module Services {
  import opened Results
  import opened Errors
  import opened Ports
  import opened Engine
  import Infrastructure
  import Lifecycle

  datatype DatabaseService = DatabaseService(adapter: Infrastructure.SurrealAdapter)

  /** `connect`: one attempt; the adapter's result, errors included, is returned unchanged. */
  function Connect(s: DatabaseService, outcome: OpenOutcome): (r: (DatabaseService, Result<(), DatabaseError>))
    ensures r.0.adapter == Infrastructure.Connect(s.adapter, outcome).0
    ensures r.1 == Infrastructure.Connect(s.adapter, outcome).1
    ensures r.1.Ok? <==> r.0.adapter.slot.Open?
    ensures r.1.Err? ==> r.0 == s
  {
    var (a, result) := Infrastructure.Connect(s.adapter, outcome);
    (DatabaseService(a), result)
  }

  /** `disconnect`: the adapter's result, unchanged. */
  function Disconnect(s: DatabaseService): (r: (DatabaseService, Result<(), DatabaseError>))
    ensures r.0.adapter == Infrastructure.Disconnect(s.adapter).0
    ensures r.1 == Infrastructure.Disconnect(s.adapter).1
    ensures r.0.adapter.slot.Empty? && r.1.Ok?
  {
    var (a, result) := Infrastructure.Disconnect(s.adapter);
    (DatabaseService(a), result)
  }

  /** `get_health`: the adapter's health report, unchanged. */
  function GetHealth(s: DatabaseService): (r: Result<DatabaseHealth, DatabaseError>)
    ensures r == Infrastructure.HealthCheck(s.adapter)
    ensures r.Ok? && (r.value.connected <==> s.adapter.slot.Open?)
  {
    Infrastructure.HealthCheck(s.adapter)
  }

  function Step(s: DatabaseService, c: Lifecycle.Call): (DatabaseService, Lifecycle.Reply)
  {
    match c
    case ConnectCall(o) => var (t, res) := Connect(s, o); (t, Lifecycle.UnitReply(res))
    case DisconnectCall => var (t, res) := Disconnect(s); (t, Lifecycle.UnitReply(res))
    case HealthCall => (s, Lifecycle.HealthReply(GetHealth(s)))
  }

  /** The service after a sequence of calls, and the replies it gave. */
  function Run(s: DatabaseService, calls: seq<Lifecycle.Call>): (r: (DatabaseService, seq<Lifecycle.Reply>))
    ensures |r.1| == |calls|
    decreases |calls|
  {
    if calls == [] then
      (s, [])
    else
      var (t, reply) := Step(s, calls[0]);
      var (u, replies) := Run(t, calls[1..]);
      (u, [reply] + replies)
  }

  /**
   Going through the service changes nothing: any sequence of calls leaves the
   service's adapter exactly where the same calls leave the adapter alone, with
   the same replies.
   */
  lemma {:induction false} ServiceRunMatchesAdapter(s: DatabaseService, calls: seq<Lifecycle.Call>)
    ensures Run(s, calls).0.adapter == Lifecycle.Run(s.adapter, calls).final
    ensures Run(s, calls).1 == Lifecycle.Run(s.adapter, calls).replies
    decreases |calls|
  {
    if calls != [] {
      var t := Step(s, calls[0]).0;
      assert t.adapter == Lifecycle.Step(s.adapter, calls[0]).0;
      ServiceRunMatchesAdapter(t, calls[1..]);
    }
  }
}
