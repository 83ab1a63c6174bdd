/**
 Sequences of adapter calls. Because every adapter operation runs entirely
 under the adapter's lock, any interleaving of concurrent callers takes effect
 as some sequence of whole calls; `Run` gives the meaning of such a sequence,
 and counts engine open attempts and the handles stored into and dropped from
 the slot, which is what a counting stub engine would observe.
 */
module Lifecycle {
  import opened Results
  import opened Errors
  import opened Ports
  import opened Engine
  import opened Infrastructure

  /** One call on the adapter; a connect call carries what the engine would do if asked. */
  datatype Call = ConnectCall(outcome: OpenOutcome) | DisconnectCall | HealthCall

  datatype Reply =
    | UnitReply(result: Result<(), DatabaseError>)
    | HealthReply(health: Result<DatabaseHealth, DatabaseError>)

  /** The adapter after a sequence of calls, the replies in order, and the handle accounting. */
  datatype Trace = Trace(final: SurrealAdapter, replies: seq<Reply>, attempts: nat, stored: nat, dropped: nat)

  function Step(a: SurrealAdapter, c: Call): (r: (SurrealAdapter, Reply))
  {
    match c
    case ConnectCall(o) => var (b, res) := Connect(a, o); (b, UnitReply(res))
    case DisconnectCall => var (b, res) := Disconnect(a); (b, UnitReply(res))
    case HealthCall => (a, HealthReply(HealthCheck(a)))
  }

  /** 1 when the call asks the engine for a new handle. */
  function Attempt(a: SurrealAdapter, c: Call): nat
  {
    if c.ConnectCall? && AsksEngine(a) then 1 else 0
  }

  /** 1 when the call leaves a handle in the slot that was not there before. */
  function Stored(a: SurrealAdapter, b: SurrealAdapter): nat
  {
    if b.slot.Open? && b.slot != a.slot then 1 else 0
  }

  /** 1 when the call drops the held handle. */
  function Dropped(a: SurrealAdapter, b: SurrealAdapter): nat
  {
    if a.slot.Open? && b.slot.Empty? then 1 else 0
  }

  /** Number of handles the adapter holds: the slot holds at most one. */
  function Live(a: SurrealAdapter): nat
  {
    if a.slot.Open? then 1 else 0
  }

  function Run(a: SurrealAdapter, calls: seq<Call>): (t: Trace)
    ensures |t.replies| == |calls|
    ensures t.final.dbPath == a.dbPath
    ensures t.stored <= t.attempts <= |calls|
    decreases |calls|
  {
    if calls == [] then
      Trace(a, [], 0, 0, 0)
    else
      var (b, reply) := Step(a, calls[0]);
      var t := Run(b, calls[1..]);
      Trace(t.final, [reply] + t.replies,
            Attempt(a, calls[0]) + t.attempts,
            Stored(a, b) + t.stored,
            Dropped(a, b) + t.dropped)
  }

  /** Handle accounting: handles stored minus handles dropped is the change in handles held. */
  lemma {:induction false} HandleBalance(a: SurrealAdapter, calls: seq<Call>)
    ensures Live(a) + Run(a, calls).stored == Live(Run(a, calls).final) + Run(a, calls).dropped
    decreases |calls|
  {
    if calls != [] {
      HandleBalance(Step(a, calls[0]).0, calls[1..]);
    }
  }

  /** No second handle: from an empty adapter, every handle after the first was preceded by a drop. */
  lemma AtMostOneLiveHandle(a: SurrealAdapter, calls: seq<Call>)
    requires a.slot.Empty?
    ensures Run(a, calls).stored - Run(a, calls).dropped == Live(Run(a, calls).final)
    ensures Run(a, calls).stored <= Run(a, calls).dropped + 1
  {
    HandleBalance(a, calls);
  }

  /** Running two sequences one after the other is running their concatenation. */
  lemma {:induction false} RunAppend(a: SurrealAdapter, xs: seq<Call>, ys: seq<Call>)
    ensures var t1 := Run(a, xs); var t2 := Run(t1.final, ys); var t := Run(a, xs + ys);
            t.final == t2.final
            && t.replies == t1.replies + t2.replies
            && t.attempts == t1.attempts + t2.attempts
            && t.stored == t1.stored + t2.stored
            && t.dropped == t1.dropped + t2.dropped
    decreases |xs|
  {
    if xs == [] {
      assert xs + ys == ys;
    } else {
      var (b, reply) := Step(a, xs[0]);
      assert (xs + ys)[0] == xs[0];
      assert (xs + ys)[1..] == xs[1..] + ys;
      RunAppend(b, xs[1..], ys);
      var rest := Run(b, xs[1..]);
      var t1 := Run(a, xs);
      assert t1.final == rest.final;
      assert t1.replies == [reply] + rest.replies;
      var t := Run(a, xs + ys);
      var trest := Run(b, xs[1..] + ys);
      assert t.replies == [reply] + trest.replies;
      assert t.stored == Stored(a, b) + trest.stored;
      assert t1.stored == Stored(a, b) + rest.stored;
    }
  }

  /** Linearisation: the i-th reply is what call i gives on the adapter left by the calls before it. */
  lemma {:induction false} ReplyOnPriorState(a: SurrealAdapter, calls: seq<Call>, i: nat)
    requires i < |calls|
    ensures Run(a, calls).replies[i] == Step(Run(a, calls[..i]).final, calls[i]).1
  {
    assert calls == calls[..i] + calls[i..];
    RunAppend(a, calls[..i], calls[i..]);
    assert calls[i..][0] == calls[i];
  }

  /** Health reflects state: a health reply describes exactly the adapter the earlier calls left. */
  lemma HealthReflectsState(a: SurrealAdapter, calls: seq<Call>, i: nat)
    requires i < |calls| && calls[i].HealthCall?
    ensures Run(a, calls).replies[i].HealthReply?
    ensures Run(a, calls).replies[i].health.Ok?
    ensures Run(a, calls).replies[i].health.value.connected <==> Run(a, calls[..i]).final.slot.Open?
  {
    ReplyOnPriorState(a, calls, i);
  }

  /** Only a connect that asked the engine can fail; disconnect and health never do. */
  lemma ErrorsOnlyFromOpenAttempts(a: SurrealAdapter, calls: seq<Call>, i: nat)
    requires i < |calls|
    ensures var r := Run(a, calls).replies[i];
            (r.UnitReply? && r.result.Err?) || (r.HealthReply? && r.health.Err?)
            ==> calls[i].ConnectCall? && !calls[i].outcome.Opened? && Run(a, calls[..i]).final.slot.Empty?
  {
    ReplyOnPriorState(a, calls, i);
  }

  /**
   The round trip connect, health, disconnect, health, connect: with the engine
   succeeding, the health replies are connected then not connected, every call
   succeeds, and the adapter ends up open again.
   */
  lemma RoundTrip(a: SurrealAdapter, h1: Handle, h2: Handle)
    ensures var t := Run(a, [ConnectCall(Opened(h1)), HealthCall, DisconnectCall, HealthCall, ConnectCall(Opened(h2))]);
            && t.replies[0] == UnitReply(Ok(()))
            && t.replies[1] == HealthReply(Ok(DatabaseHealth(true, "Database connection is healthy")))
            && t.replies[2] == UnitReply(Ok(()))
            && t.replies[3] == HealthReply(Ok(DatabaseHealth(false, "Database is not connected")))
            && t.replies[4] == UnitReply(Ok(()))
            && t.final.slot == Open(h2)
  {
    var calls := [ConnectCall(Opened(h1)), HealthCall, DisconnectCall, HealthCall, ConnectCall(Opened(h2))];
    var b := Connect(a, Opened(h1)).0;
    var c := Disconnect(b).0;
    var d := Connect(c, Opened(h2)).0;
    assert calls[4..] == [ConnectCall(Opened(h2))] && calls[4..][1..] == [];
    assert Run(d, calls[4..][1..]).final == d;
    var t4 := Run(c, calls[4..]);
    assert t4.final == d && t4.replies == [UnitReply(Ok(()))];
    assert calls[3..][1..] == calls[4..];
    var t3 := Run(c, calls[3..]);
    assert t3.final == d && t3.replies == [HealthReply(HealthCheck(c))] + t4.replies;
    assert calls[2..][1..] == calls[3..];
    var t2 := Run(b, calls[2..]);
    assert t2.final == d && t2.replies == [UnitReply(Ok(()))] + t3.replies;
    assert calls[1..][1..] == calls[2..];
    var t1 := Run(b, calls[1..]);
    assert t1.final == d && t1.replies == [HealthReply(HealthCheck(b))] + t2.replies;
  }

  /** Index of the first open attempt that would succeed, or the length when none would. */
  function FirstOpened(outcomes: seq<OpenOutcome>): (k: nat)
    ensures k <= |outcomes|
    ensures forall j :: 0 <= j < k ==> !outcomes[j].Opened?
    ensures k < |outcomes| ==> outcomes[k].Opened?
    decreases |outcomes|
  {
    if outcomes == [] then 0
    else if outcomes[0].Opened? then 0
    else 1 + FirstOpened(outcomes[1..])
  }

  /** One connect call per engine outcome, in order. */
  function ConnectCalls(outcomes: seq<OpenOutcome>): (calls: seq<Call>)
    ensures |calls| == |outcomes|
    ensures forall j :: 0 <= j < |outcomes| ==> calls[j] == ConnectCall(outcomes[j])
  {
    seq(|outcomes|, j requires 0 <= j < |outcomes| => ConnectCall(outcomes[j]))
  }

  /** A run of connects from an open adapter: every call succeeds and the engine is never asked. */
  lemma {:induction false} RunConnectsFromOpen(a: SurrealAdapter, outcomes: seq<OpenOutcome>)
    requires a.slot.Open?
    ensures var t := Run(a, ConnectCalls(outcomes));
            && t.final == a && t.attempts == 0
            && forall j :: 0 <= j < |outcomes| ==> t.replies[j] == UnitReply(Ok(()))
    decreases |outcomes|
  {
    if outcomes != [] {
      var calls := ConnectCalls(outcomes);
      assert calls[0] == ConnectCall(outcomes[0]);
      assert calls[1..] == ConnectCalls(outcomes[1..]);
      RunConnectsFromOpen(a, outcomes[1..]);
    }
  }

  /**
   A run of connects from an empty adapter: the calls before the first
   successful outcome fail with their engine error, the engine is asked up to
   and including that success, and every later call succeeds on its handle.
   */
  lemma {:induction false} RunConnectsFromEmpty(a: SurrealAdapter, outcomes: seq<OpenOutcome>)
    requires a.slot.Empty?
    ensures var t := Run(a, ConnectCalls(outcomes)); var k := FirstOpened(outcomes);
            && t.attempts == (if k < |outcomes| then k + 1 else k)
            && (k < |outcomes| ==> t.final == a.(slot := Open(outcomes[k].handle)))
            && (k == |outcomes| ==> t.final == a)
            && forall j :: 0 <= j < |outcomes| ==>
                 t.replies[j] == UnitReply(if j < k then Err(OpenError(outcomes[j])) else Ok(()))
    decreases |outcomes|
  {
    if outcomes != [] {
      var calls := ConnectCalls(outcomes);
      assert calls[0] == ConnectCall(outcomes[0]);
      assert calls[1..] == ConnectCalls(outcomes[1..]);
      var b := Step(a, calls[0]).0;
      if outcomes[0].Opened? {
        RunConnectsFromOpen(b, outcomes[1..]);
      } else {
        RunConnectsFromEmpty(b, outcomes[1..]);
        var t := Run(a, calls);
        var u := Run(b, calls[1..]);
        assert t.replies == [UnitReply(Err(OpenError(outcomes[0])))] + u.replies;
      }
    }
  }

  /**
   Concurrent connects on an empty adapter with an engine that succeeds: one
   open attempt, every caller gets Ok, and the first caller's handle is kept.
   */
  lemma ConcurrentConnectsOpenOnce(a: SurrealAdapter, outcomes: seq<OpenOutcome>)
    requires a.slot.Empty? && |outcomes| > 0 && outcomes[0].Opened?
    ensures var t := Run(a, ConnectCalls(outcomes));
            && t.attempts == 1 && t.stored == 1
            && t.final.slot == Open(outcomes[0].handle)
            && forall j :: 0 <= j < |outcomes| ==> t.replies[j] == UnitReply(Ok(()))
  {
    RunConnectsFromEmpty(a, outcomes);
    var calls := ConnectCalls(outcomes);
    assert calls[0] == ConnectCall(outcomes[0]);
    assert calls[1..] == ConnectCalls(outcomes[1..]);
    var b := Step(a, calls[0]).0;
    RunConnectsFromOpen(b, outcomes[1..]);
    HandleBalance(b, calls[1..]);
  }

  /**
   What many callers connecting at once end with, linearised by the lock, given
   one engine outcome per call: from Open, nothing changes, every call succeeds
   and the engine is never asked. From Empty, the calls before the first
   successful outcome fail with their engine error and leave the adapter
   alone. The engine is asked up to and including that success, the adapter
   then holds its handle, and every later call succeeds.
   */
  predicate ConnectsEndWith(a: SurrealAdapter, outcomes: seq<OpenOutcome>,
                            final: SurrealAdapter, results: seq<Result<(), DatabaseError>>, attempts: nat)
  {
    && |results| == |outcomes|
    && final.dbPath == a.dbPath
    && (a.slot.Open? ==> final == a && attempts == 0 && forall j :: 0 <= j < |results| ==> results[j] == Ok(()))
    && (a.slot.Empty? ==>
          var k := FirstOpened(outcomes);
          && attempts == (if k < |outcomes| then k + 1 else k)
          && (k < |outcomes| ==> final.slot == Open(outcomes[k].handle))
          && (k == |outcomes| ==> final == a)
          && forall j :: 0 <= j < |results| ==>
               if j < k then results[j] == Err(OpenError(outcomes[j])) else results[j] == Ok(()))
  }

  /** `ConnectsEndWith` is exactly what `Run` gives for the same connect calls, so the two meanings agree. */
  lemma ConnectsEndWithIsRun(a: SurrealAdapter, outcomes: seq<OpenOutcome>,
                             final: SurrealAdapter, results: seq<Result<(), DatabaseError>>, attempts: nat)
    requires ConnectsEndWith(a, outcomes, final, results, attempts)
    ensures var t := Run(a, ConnectCalls(outcomes));
            && final == t.final && attempts == t.attempts
            && forall j :: 0 <= j < |results| ==> t.replies[j] == UnitReply(results[j])
  {
    if a.slot.Open? {
      RunConnectsFromOpen(a, outcomes);
    } else {
      RunConnectsFromEmpty(a, outcomes);
    }
  }

  /**
   Many callers connecting at once, one after another as the lock orders them:
   call j uses `outcomes[j]` only if the engine is asked, and `attempts` counts
   the open attempts a counting stub engine would see.
   */
  method ConnectAll(a: SurrealAdapter, outcomes: seq<OpenOutcome>)
    returns (final: SurrealAdapter, results: seq<Result<(), DatabaseError>>, attempts: nat)
    ensures ConnectsEndWith(a, outcomes, final, results, attempts)
  {
    var k := FirstOpened(outcomes);
    final, results, attempts := a, [], 0;
    var i := 0;
    while i < |outcomes|
      invariant 0 <= i <= |outcomes|
      invariant |results| == i
      invariant final.dbPath == a.dbPath
      invariant a.slot.Open? ==> final == a && attempts == 0 && forall j :: 0 <= j < i ==> results[j] == Ok(())
      invariant a.slot.Empty? && i <= k ==> final == a && attempts == i
      invariant a.slot.Empty? && k < i ==> final.slot == Open(outcomes[k].handle) && attempts == k + 1
      invariant a.slot.Empty? ==> forall j :: 0 <= j < i ==>
                  if j < k then results[j] == Err(OpenError(outcomes[j])) else results[j] == Ok(())
    {
      if AsksEngine(final) {
        attempts := attempts + 1;
      }
      var (next, result) := Connect(final, outcomes[i]);
      final := next;
      results := results + [result];
      i := i + 1;
    }
  }
}
