/**
 The process-wide `metrics` record of the pizza service, the trackers that
 request handling and authentication call to update it, and the export tick
 that reads it every ten seconds and builds one OTLP request per series.

 The record is first described as a value (`State`) with its transitions
 (`Step`); the class `Registry` holds the same fields and updates them in
 place, each method promising exactly the transition `Step` describes.
 */
module Metrics {
  import opened Js
  import Otlp

  datatype AuthAttempts = AuthAttempts(success: int, failure: int)

  /** Declared in the record but never updated or exported. */
  datatype SystemUsage = SystemUsage(memoryPercentage: real, cpuPercentage: real)
  datatype Pizzas = Pizzas(sold: int, creationFailures: int, revenue: real)
  datatype Latency = Latency(endpointLatency: real, pizzaCreationLatency: real)

  datatype State = State(
    requestsByMethod: Object<Num>,
    activeUsers: int,
    authAttempts: AuthAttempts,
    system: SystemUsage,
    pizzas: Pizzas,
    latency: Latency)

  const StandardMethods: seq<string> := ["GET", "POST", "PUT", "DELETE"]

  /**
   The record as the module creates it: exactly the four method keys, every
   count at zero, the gauge and both auth counters at zero.
   */
  function Initial(): (r: State)
    ensures r.requestsByMethod.keys == StandardMethods
    ensures forall m :: m in StandardMethods ==> Get(r.requestsByMethod, m) == Some(Int(0))
    ensures r.activeUsers == 0 && r.authAttempts == AuthAttempts(0, 0)
    ensures Invariant(r)
  {
    State(
      RawObject(StandardMethods, map["GET" := Int(0), "POST" := Int(0), "PUT" := Int(0), "DELETE" := Int(0)]),
      0, AuthAttempts(0, 0), SystemUsage(0.0, 0.0), Pizzas(0, 0, 0.0), Latency(0.0, 0.0))
  }

  /** An integer count that is not negative; NaN is not a count. */
  predicate IsCount(n: Num)
  {
    n.Int? && n.i >= 0
  }

  /**
   What every reachable record satisfies: the four standard methods come first
   and hold counts, every other method holds a count or NaN, and the gauge and
   the auth counters are non-negative.
   */
  ghost predicate Invariant(s: State)
  {
    var o := s.requestsByMethod;
    && |o.keys| >= |StandardMethods|
    && o.keys[..|StandardMethods|] == StandardMethods
    && (forall m :: m in StandardMethods ==> m in o.values && IsCount(o.values[m]))
    && (forall k :: k in o.values && o.values[k].Int? ==> o.values[k].i >= 0)
    && s.activeUsers >= 0
    && s.authAttempts.success >= 0
    && s.authAttempts.failure >= 0
  }

  /** The calls into the module that change the record. */
  datatype Op =
    | Request(httpMethod: string)
    | ActivateUser
    | DeactivateUser
    | AuthSuccess
    | AuthFailure

  /**
   The record after one call. Each call changes only its own field: a request
   only the method map, the user calls only the gauge, the auth calls only
   their counters; `system`, `pizzas` and `latency` never change.
   */
  function Step(s: State, op: Op): (r: State)
    ensures r.system == s.system && r.pizzas == s.pizzas && r.latency == s.latency
    ensures !op.Request? ==> r.requestsByMethod == s.requestsByMethod
    ensures !(op.ActivateUser? || op.DeactivateUser?) ==> r.activeUsers == s.activeUsers
    ensures !(op.AuthSuccess? || op.AuthFailure?) ==> r.authAttempts == s.authAttempts
  {
    match op
    case Request(m) =>
      s.(requestsByMethod := Put(s.requestsByMethod, m, PlusOne(Get(s.requestsByMethod, m))))
    case ActivateUser =>
      s.(activeUsers := s.activeUsers + 1)
    case DeactivateUser =>
      if s.activeUsers > 0 then s.(activeUsers := s.activeUsers - 1) else s
    case AuthSuccess =>
      s.(authAttempts := s.authAttempts.(success := s.authAttempts.success + 1))
    case AuthFailure =>
      s.(authAttempts := s.authAttempts.(failure := s.authAttempts.failure + 1))
  }

  /** The record after a sequence of calls, first to last. */
  function Run(s: State, ops: seq<Op>): State
    decreases |ops|
  {
    if ops == [] then s else Run(Step(s, ops[0]), ops[1..])
  }

  /** How many times `op` occurs in `ops`. */
  function Occurrences(ops: seq<Op>, op: Op): nat
  {
    if ops == [] then 0 else (if ops[0] == op then 1 else 0) + Occurrences(ops[1..], op)
  }

  /** The number of requests the record has counted for a standard method. */
  function MethodCount(s: State, m: string): (n: nat)
    requires Invariant(s) && m in StandardMethods
    ensures Get(s.requestsByMethod, m) == Some(Int(n))
  {
    s.requestsByMethod.values[m].i
  }

  // ---------------------------------------------------------------------------
  // Properties of the record and its trackers
  // ---------------------------------------------------------------------------

  /** Every call keeps the invariant. */
  lemma StepKeepsInvariant(s: State, op: Op)
    requires Invariant(s)
    ensures Invariant(Step(s, op))
  {
    if op.Request? {
      var o := s.requestsByMethod;
      var r := Step(s, op).requestsByMethod;
      assert r.keys[..|StandardMethods|] == o.keys[..|StandardMethods|];
    }
  }

  /** Any sequence of calls keeps the invariant. */
  lemma {:induction false} RunKeepsInvariant(s: State, ops: seq<Op>)
    requires Invariant(s)
    ensures Invariant(Run(s, ops))
    decreases |ops|
  {
    if ops != [] {
      StepKeepsInvariant(s, ops[0]);
      RunKeepsInvariant(Step(s, ops[0]), ops[1..]);
    }
  }

  /** From the initial record, the active-user gauge never goes negative, whatever the calls. */
  lemma ActiveUsersNeverNegative(ops: seq<Op>)
    ensures Run(Initial(), ops).activeUsers >= 0
  {
    RunKeepsInvariant(Initial(), ops);
  }

  /** Deactivating at zero changes nothing; above zero it lowers the gauge by exactly one and touches nothing else. */
  lemma DeactivateFloorsAtZero(s: State)
    ensures s.activeUsers <= 0 ==> Step(s, DeactivateUser) == s
    ensures s.activeUsers > 0 ==> Step(s, DeactivateUser) == s.(activeUsers := s.activeUsers - 1)
  {
  }

  /** Activating then deactivating a user restores the record; the reverse order does too when the gauge is above zero. */
  lemma ActivateDeactivateInverse(s: State)
    requires s.activeUsers >= 0
    ensures Step(Step(s, ActivateUser), DeactivateUser) == s
    ensures s.activeUsers > 0 ==> Step(Step(s, DeactivateUser), ActivateUser) == s
  {
  }

  /** Each auth tracker raises its own counter by one; no other field of the record changes. */
  lemma AuthTrackersOwnTheirCounter(s: State)
    ensures Step(s, AuthSuccess).authAttempts.success == s.authAttempts.success + 1
    ensures Step(s, AuthSuccess).authAttempts.failure == s.authAttempts.failure
    ensures Step(s, AuthSuccess).(authAttempts := s.authAttempts) == s
    ensures Step(s, AuthFailure).authAttempts.failure == s.authAttempts.failure + 1
    ensures Step(s, AuthFailure).authAttempts.success == s.authAttempts.success
    ensures Step(s, AuthFailure).(authAttempts := s.authAttempts) == s
  {
  }

  /**
   A request with a standard method raises only that method's count, by one:
   the keys and every other method's count stay, and so does the rest of the record.
   */
  lemma StandardRequestCounts(s: State, m: string)
    requires Invariant(s) && m in StandardMethods
    ensures var r := Step(s, Request(m));
            && r.requestsByMethod.keys == s.requestsByMethod.keys
            && Get(r.requestsByMethod, m) == Some(Int(MethodCount(s, m) + 1))
            && (forall k :: k != m ==> Get(r.requestsByMethod, k) == Get(s.requestsByMethod, k))
            && r == s.(requestsByMethod := r.requestsByMethod)
  {
  }

  /**
   A request with a method outside the record's keys (JavaScript computes
   `undefined + 1`) adds that method as the last key, holding NaN.
   */
  lemma UnknownRequestStoresNaN(s: State, m: string)
    requires m !in s.requestsByMethod.keys
    ensures Step(s, Request(m)).requestsByMethod.keys == s.requestsByMethod.keys + [m]
    ensures Get(Step(s, Request(m)).requestsByMethod, m) == Some(NaN)
  {
  }

  /** Over any sequence of calls, each auth counter grows by exactly the number of its events. */
  lemma {:induction false} AuthCountersCountEvents(s: State, ops: seq<Op>)
    ensures Run(s, ops).authAttempts.success == s.authAttempts.success + Occurrences(ops, AuthSuccess)
    ensures Run(s, ops).authAttempts.failure == s.authAttempts.failure + Occurrences(ops, AuthFailure)
    decreases |ops|
  {
    if ops != [] {
      AuthCountersCountEvents(Step(s, ops[0]), ops[1..]);
    }
  }

  /** One call raises a standard method's count by one if it is a request for that method, and leaves it otherwise. */
  lemma StepCount(s: State, op: Op, m: string)
    requires Invariant(s) && m in StandardMethods
    ensures Invariant(Step(s, op))
    ensures MethodCount(Step(s, op), m) == MethodCount(s, m) + (if op == Request(m) then 1 else 0)
  {
    StepKeepsInvariant(s, op);
  }

  /** Over any sequence of calls, a standard method's count grows by exactly the number of its requests. */
  lemma {:induction false} RequestsCountEvents(s: State, ops: seq<Op>, m: string)
    requires Invariant(s) && m in StandardMethods
    ensures Invariant(Run(s, ops))
    ensures MethodCount(Run(s, ops), m) == MethodCount(s, m) + Occurrences(ops, Request(m))
    decreases |ops|
  {
    if ops != [] {
      StepCount(s, ops[0], m);
      RequestsCountEvents(Step(s, ops[0]), ops[1..], m);
    }
  }

  /** Only requests with standard methods: the method map keeps exactly its four keys. */
  lemma {:induction false} StandardTrafficKeepsKeys(s: State, ops: seq<Op>)
    requires Invariant(s) && s.requestsByMethod.keys == StandardMethods
    requires forall i :: 0 <= i < |ops| ==> ops[i].Request? ==> ops[i].httpMethod in StandardMethods
    ensures Invariant(Run(s, ops)) && Run(s, ops).requestsByMethod.keys == StandardMethods
    decreases |ops|
  {
    if ops != [] {
      StepKeepsInvariant(s, ops[0]);
      StandardTrafficKeepsKeys(Step(s, ops[0]), ops[1..]);
    }
  }

  // ---------------------------------------------------------------------------
  // The export tick
  // ---------------------------------------------------------------------------

  /** One `sendMetricToGrafana(name, value, attributes)` call. */
  datatype Send = Send(name: string, value: Num, attributes: Object<string>)

  /** One `methods` send per key of the method map, in key order, tagged `{method}`. */
  function MethodSends(o: Object<Num>): seq<Send>
  {
    seq(|o.keys|, i requires 0 <= i < |o.keys| =>
      Send("methods", o.values[o.keys[i]], Single("method", o.keys[i])))
  }

  /** The calls one tick of the export timer makes, in order, with the record's values at tick time. */
  function TickSends(s: State): (r: seq<Send>)
    ensures |r| == |s.requestsByMethod.keys| + 3
  {
    MethodSends(s.requestsByMethod)
    + [ Send("activeUsers", Int(s.activeUsers), Empty()),
        Send("authAttemps", Int(s.authAttempts.success), Single("status", "success")),
        Send("authAttemps", Int(s.authAttempts.failure), Single("status", "failure")) ]
  }

  /** The request bodies for a run of calls, the i-th call reading the clock as `clock(i)`. */
  function Requests(calls: seq<Send>, source: string, clock: nat -> int): seq<Otlp.ExportMetricsServiceRequest>
  {
    seq(|calls|, i requires 0 <= i < |calls| =>
      Otlp.Payload(calls[i].name, calls[i].value, calls[i].attributes, source, clock(i)))
  }

  /** The request bodies one tick builds. */
  function TickRequests(s: State, source: string, clock: nat -> int): seq<Otlp.ExportMetricsServiceRequest>
  {
    Requests(TickSends(s), source, clock)
  }

  /**
   A tick sends one `methods` point per key of the method map, carrying the
   count read under that key, followed by the gauge and the two auth counters.
   */
  lemma TickSendsEachSeries(s: State)
    ensures |TickSends(s)| == |s.requestsByMethod.keys| + 3
    ensures forall i :: 0 <= i < |s.requestsByMethod.keys| ==>
      var k := s.requestsByMethod.keys[i];
      TickSends(s)[i] == Send("methods", Get(s.requestsByMethod, k).value, Single("method", k))
    ensures TickSends(s)[|s.requestsByMethod.keys|..]
         == [ Send("activeUsers", Int(s.activeUsers), Empty()),
              Send("authAttemps", Int(s.authAttempts.success), Single("status", "success")),
              Send("authAttemps", Int(s.authAttempts.failure), Single("status", "failure")) ]
  {
  }

  /** The tick of a record with the four standard keys holding the given counts: exactly seven sends, in this order. */
  lemma TickOfStandardRecord(s: State, get: int, post: int, put: int, delete: int)
    requires s.requestsByMethod.keys == StandardMethods
    requires Get(s.requestsByMethod, "GET") == Some(Int(get))
    requires Get(s.requestsByMethod, "POST") == Some(Int(post))
    requires Get(s.requestsByMethod, "PUT") == Some(Int(put))
    requires Get(s.requestsByMethod, "DELETE") == Some(Int(delete))
    ensures TickSends(s)
         == [ Send("methods", Int(get), Single("method", "GET")),
              Send("methods", Int(post), Single("method", "POST")),
              Send("methods", Int(put), Single("method", "PUT")),
              Send("methods", Int(delete), Single("method", "DELETE")),
              Send("activeUsers", Int(s.activeUsers), Empty()),
              Send("authAttemps", Int(s.authAttempts.success), Single("status", "success")),
              Send("authAttemps", Int(s.authAttempts.failure), Single("status", "failure")) ]
  {
    TickSendsEachSeries(s);
  }

  /**
   In every reachable record the tick opens with the four standard methods, in
   the order GET, POST, PUT, DELETE, each carrying its count; any other method
   follows them.
   */
  lemma TickLeadsWithStandardMethods(s: State)
    requires Invariant(s)
    ensures |TickSends(s)| >= |StandardMethods| + 3
    ensures forall j :: 0 <= j < |StandardMethods| ==>
      TickSends(s)[j] == Send("methods", Int(MethodCount(s, StandardMethods[j])), Single("method", StandardMethods[j]))
  {
    TickSendsEachSeries(s);
    forall j | 0 <= j < |StandardMethods|
      ensures s.requestsByMethod.keys[j] == StandardMethods[j]
    {
      assert s.requestsByMethod.keys[..|StandardMethods|][j] == s.requestsByMethod.keys[j];
    }
  }

  /** From the initial record, each auth counter is the number of its events. */
  lemma AuthFromInitial(ops: seq<Op>)
    ensures Run(Initial(), ops).authAttempts == AuthAttempts(Occurrences(ops, AuthSuccess), Occurrences(ops, AuthFailure))
  {
    AuthCountersCountEvents(Initial(), ops);
  }

  /** From the initial record, a standard method's count is the number of its requests. */
  lemma CountFromInitial(ops: seq<Op>, m: string)
    requires m in StandardMethods
    ensures Get(Run(Initial(), ops).requestsByMethod, m) == Some(Int(Occurrences(ops, Request(m))))
  {
    RequestsCountEvents(Initial(), ops, m);
  }

  /** From the initial record, traffic on the standard methods only leaves exactly the four keys. */
  lemma KeysAfterStandardTraffic(ops: seq<Op>)
    requires forall i :: 0 <= i < |ops| ==> ops[i].Request? ==> ops[i].httpMethod in StandardMethods
    ensures Run(Initial(), ops).requestsByMethod.keys == StandardMethods
  {
    StandardTrafficKeepsKeys(Initial(), ops);
  }

  /**
   After any traffic that uses only the standard methods, a tick from the
   initial record makes exactly seven sends, each carrying the number of
   events of its series.
   */
  lemma TickAfterStandardTraffic(ops: seq<Op>)
    requires forall i :: 0 <= i < |ops| ==> ops[i].Request? ==> ops[i].httpMethod in StandardMethods
    ensures TickSends(Run(Initial(), ops))
         == [ Send("methods", Int(Occurrences(ops, Request("GET"))), Single("method", "GET")),
              Send("methods", Int(Occurrences(ops, Request("POST"))), Single("method", "POST")),
              Send("methods", Int(Occurrences(ops, Request("PUT"))), Single("method", "PUT")),
              Send("methods", Int(Occurrences(ops, Request("DELETE"))), Single("method", "DELETE")),
              Send("activeUsers", Int(Run(Initial(), ops).activeUsers), Empty()),
              Send("authAttemps", Int(Occurrences(ops, AuthSuccess)), Single("status", "success")),
              Send("authAttemps", Int(Occurrences(ops, AuthFailure)), Single("status", "failure")) ]
  {
    var s := Run(Initial(), ops);
    KeysAfterStandardTraffic(ops);
    CountFromInitial(ops, "GET");
    CountFromInitial(ops, "POST");
    CountFromInitial(ops, "PUT");
    CountFromInitial(ops, "DELETE");
    TickOfStandardRecord(s, Occurrences(ops, Request("GET")), Occurrences(ops, Request("POST")),
                         Occurrences(ops, Request("PUT")), Occurrences(ops, Request("DELETE")));
    AuthFromInitial(ops);
  }

  /** Every request a tick builds carries exactly one data point, the series' value and the configured source. */
  lemma TickRequestsCarrySource(s: State, source: string, clock: nat -> int, i: nat)
    requires i < |TickRequests(s, source, clock)|
    ensures var send := TickSends(s)[i];
            var p := Otlp.SinglePoint(TickRequests(s, source, clock)[i]);
            && p.Some?
            && p.value.name == send.name && p.value.value == send.value
            && p.value.timeUnixNano == clock(i) * Otlp.NanosPerMilli
            && Otlp.KeyValue(Otlp.SourceKey, Otlp.AnyValue(source)) in p.value.attributes
  {
    var send := TickSends(s)[i];
    assert TickRequests(s, source, clock)[i]
        == Otlp.Payload(send.name, send.value, send.attributes, source, clock(i));
    var merged := Otlp.WithSource(send.attributes, source);
    assert Otlp.SourceKey in merged.keys;
    var j :| 0 <= j < |merged.keys| && merged.keys[j] == Otlp.SourceKey;
    Otlp.AttributeValues(send.attributes, source, j);
    assert Otlp.AttributeList(merged)[j] == Otlp.KeyValue(Otlp.SourceKey, Otlp.AnyValue(source));
  }

  lemma SliceGrows<T>(xs: seq<T>, i: nat)
    requires i < |xs|
    ensures xs[..i] + [xs[i]] == xs[..i + 1]
  {
  }

  lemma AppendThree<T>(xs: seq<T>, a: T, b: T, c: T)
    ensures xs + [a] + [b] + [c] == xs + [a, b, c]
  {
  }

  lemma RequestsGrow(calls: seq<Send>, call: Send, source: string, clock: nat -> int)
    ensures Requests(calls + [call], source, clock)
         == Requests(calls, source, clock)
            + [Otlp.Payload(call.name, call.value, call.attributes, source, clock(|calls|))]
  {
    var grown := Requests(calls + [call], source, clock);
    var expected := Requests(calls, source, clock)
                    + [Otlp.Payload(call.name, call.value, call.attributes, source, clock(|calls|))];
    forall i | 0 <= i < |grown|
      ensures grown[i] == expected[i]
    {
      if i < |calls| {
        assert (calls + [call])[i] == calls[i];
      }
    }
  }

  // ---------------------------------------------------------------------------
  // The live record, updated in place
  // ---------------------------------------------------------------------------

  /** The `next` callback Express hands to a middleware, counting its calls. */
  class Next {
    var calls: nat

    constructor ()
      ensures calls == 0
    {
      calls := 0;
    }

    method Call()
      modifies this
      ensures calls == old(calls) + 1
    {
      calls := calls + 1;
    }
  }

  /** The module-level `metrics` object and the functions that update and export it. */
  class Registry {
    var requestsByMethod: Object<Num>
    var activeUsers: int
    var authAttempts: AuthAttempts
    var system: SystemUsage
    var pizzas: Pizzas
    var latency: Latency

    /** The record's current value. */
    function Snapshot(): State
      reads this
    {
      State(requestsByMethod, activeUsers, authAttempts, system, pizzas, latency)
    }

    ghost predicate Valid()
      reads this
    {
      Invariant(Snapshot())
    }

    constructor ()
      ensures Valid() && Snapshot() == Initial()
    {
      requestsByMethod := RawObject(StandardMethods, map["GET" := Int(0), "POST" := Int(0), "PUT" := Int(0), "DELETE" := Int(0)]);
      activeUsers := 0;
      authAttempts := AuthAttempts(0, 0);
      system := SystemUsage(0.0, 0.0);
      pizzas := Pizzas(0, 0, 0.0);
      latency := Latency(0.0, 0.0);
      }

    /**
     The middleware `requestTracker()` installs: count the request under its
     method, then hand on to `next`, which it calls exactly once.
     */
    method RequestTracker(httpMethod: string, next: Next)
      requires Valid()
      modifies this, next
      ensures Valid() && Snapshot() == Step(old(Snapshot()), Request(httpMethod))
      ensures next.calls == old(next.calls) + 1
    {
      StepKeepsInvariant(Snapshot(), Request(httpMethod));
      requestsByMethod := Put(requestsByMethod, httpMethod, PlusOne(Get(requestsByMethod, httpMethod)));
      next.Call();
    }

    method IncrementActiveUsers()
      requires Valid()
      modifies this
      ensures Valid() && Snapshot() == Step(old(Snapshot()), ActivateUser)
    {
      activeUsers := activeUsers + 1;
    }

    method DecrementActiveUsers()
      requires Valid()
      modifies this
      ensures Valid() && Snapshot() == Step(old(Snapshot()), DeactivateUser)
    {
      if activeUsers > 0 {
        activeUsers := activeUsers - 1;
      }
    }

    method TrackAuthSuccess()
      requires Valid()
      modifies this
      ensures Valid() && Snapshot() == Step(old(Snapshot()), AuthSuccess)
    {
      authAttempts := authAttempts.(success := authAttempts.success + 1);
    }

    method TrackAuthFailure()
      requires Valid()
      modifies this
      ensures Valid() && Snapshot() == Step(old(Snapshot()), AuthFailure)
    {
      authAttempts := authAttempts.(failure := authAttempts.failure + 1);
    }

    /**
     The body of the export timer: one `sendMetricToGrafana` call per method
     key, in key order, then the gauge, then the auth counters for success and
     failure; the i-th call reads the clock as `clock(i)`. It returns the bodies
     it would post, in order, and changes nothing in the record.
     */
    method Tick(source: string, clock: nat -> int) returns (requests: seq<Otlp.ExportMetricsServiceRequest>)
      ensures requests == TickRequests(Snapshot(), source, clock)
    {
      ghost var methodSends := MethodSends(requestsByMethod);
      ghost var calls: seq<Send> := [];
      var keys := requestsByMethod.keys;
      requests := [];
      for i := 0 to |keys|
        invariant calls == methodSends[..i]
        invariant requests == Requests(calls, source, clock)
      {
        var key := keys[i];
        var call := Send("methods", Get(requestsByMethod, key).value, Single("method", key));
        var r := Otlp.SendMetric(call.name, call.value, call.attributes, source, clock(i));
        assert methodSends[i] == call;
        SliceGrows(methodSends, i);
        RequestsGrow(calls, call, source, clock);
        calls := calls + [call];
        requests := requests + [r];
      }
      assert methodSends[..|keys|] == methodSends;
      var n := |keys|;
      AppendThree(calls, Send("activeUsers", Int(activeUsers), Empty()),
                  Send("authAttemps", Int(authAttempts.success), Single("status", "success")),
                  Send("authAttemps", Int(authAttempts.failure), Single("status", "failure")));
      var call := Send("activeUsers", Int(activeUsers), Empty());
      var r := Otlp.SendMetric(call.name, call.value, call.attributes, source, clock(n));
      RequestsGrow(calls, call, source, clock);
      calls, requests := calls + [call], requests + [r];
      call := Send("authAttemps", Int(authAttempts.success), Single("status", "success"));
      r := Otlp.SendMetric(call.name, call.value, call.attributes, source, clock(n + 1));
      RequestsGrow(calls, call, source, clock);
      calls, requests := calls + [call], requests + [r];
      call := Send("authAttemps", Int(authAttempts.failure), Single("status", "failure"));
      r := Otlp.SendMetric(call.name, call.value, call.attributes, source, clock(n + 2));
      RequestsGrow(calls, call, source, clock);
      calls, requests := calls + [call], requests + [r];
    }
  }
}
