/** One measured connection attempt with its retries: which error is reported and how the elapsed
    time divides (benchmarking/firmware/src/main.c, mqtt_tls_net_connect, run_one_attempt,
    run_one_attempt_with_retries, and the status column of main). */
module AttemptEngine {
  import opened Numbers
  import opened Options

  /** wolfMQTT return codes; `NetworkError` is the one the retry loop starts from. */
  datatype Code = Success | Continue | TimedOut | NetworkError | Failed(code: int)

  datatype Metrics = Metrics(
    tcpConnect: int, tlsSetup: int, tlsHandshake: int, rawHandshake: int, mqttConnect: int, fullConnect: int,
    errorCode: Code, tlsLastError: int)

  const ZERO := Metrics(0, 0, 0, 0, 0, 0, Success, 0)

  /** One MqttClient_NetConnect: it may open the TCP connection, may set up TLS, then spends `rest`
      on everything else, one after the other. */
  datatype NetCall = NetCall(tcp: Option<nat>, setup: Option<nat>, rest: nat, rc: Code, tlsError: int)

  predicate Retryable(c: NetCall) { c.rc == Continue || c.rc == TimedOut }

  /** A call after which the loop tries again took at least a millisecond. */
  type Call = c: NetCall | Retryable(c) ==> Elapsed(c) >= 1 witness NetCall(None, None, 0, Success, 0)

  /** All the environment decides in one try; `lead` and `tail` are time spent around the phases. */
  datatype Try = Try(
    init: Code, lead: nat, calls: nat -> Call,
    connect: Code, subscribe: Code, publish: Code, mqttMs: nat, tail: nat)

  function Duration(d: Option<nat>): nat { if d.Some? then d.value else 0 }

  function Latest(d: Option<nat>, previous: nat): nat { if d.Some? then d.value else previous }

  function Elapsed(c: NetCall): nat { Duration(c.tcp) + Duration(c.setup) + c.rest }

  datatype NetEnd = NetEnd(rc: Code, elapsed: nat, tcp: nat, setup: nat, tlsError: int)

  /** The TLS connect loop from its `k`-th call on. */
  function NetRun(calls: nat -> Call, k: nat, elapsed: nat, tcp: nat, setup: nat, limit: int): NetEnd
    decreases limit - elapsed
  {
    var c := calls(k);
    var elapsed', tcp', setup' := elapsed + Elapsed(c), Latest(c.tcp, tcp), Latest(c.setup, setup);
    if c.rc == Success then NetEnd(Success, elapsed', tcp', setup', 0)
    else if c.rc != Continue && c.rc != TimedOut then NetEnd(c.rc, elapsed', tcp', setup', c.tlsError)
    else if elapsed' < limit then NetRun(calls, k + 1, elapsed', tcp', setup', limit)
    else NetEnd(TimedOut, elapsed', tcp', setup', c.tlsError)
  }

  /** Connect, subscribe and publish: the first failure, or success. */
  function MqttCode(t: Try): Code {
    if t.connect != Success then t.connect else if t.subscribe != Success then t.subscribe else t.publish
  }

  datatype Report = Report(rc: Code, metrics: Metrics)

  /** What one try reports; nothing in it comes from an earlier try. */
  function Attempted(t: Try, limit: int): Report {
    if t.init != Success then Report(t.init, ZERO.(errorCode := t.init))
    else
      var net := NetRun(t.calls, 0, 0, 0, 0, limit);
      if net.rc != Success then
        Report(net.rc, ZERO.(errorCode := net.rc, tlsLastError := net.tlsError, fullConnect := t.lead + net.elapsed + t.tail))
      else
        var handshake := Max(0, net.elapsed - net.tcp);
        var connected := ZERO.(
          tcpConnect := net.tcp, tlsSetup := net.setup, tlsHandshake := handshake,
          rawHandshake := Max(0, handshake - net.setup),
          fullConnect := t.lead + net.elapsed + t.mqttMs + t.tail);
        if MqttCode(t) != Success then Report(MqttCode(t), connected.(errorCode := MqttCode(t)))
        else Report(Success, connected.(mqttConnect := t.mqttMs))
  }

  class Client {
    var now: int
    var lastTcpConnectMs: nat
    var lastTlsSetupMs: nat
    const handshakeTimeoutMs: int

    method NetConnect(c: NetCall)
      modifies this
      ensures now == old(now) + Elapsed(c)
      ensures lastTcpConnectMs == Latest(c.tcp, old(lastTcpConnectMs))
      ensures lastTlsSetupMs == Latest(c.setup, old(lastTlsSetupMs))
    {
      if c.tcp.Some? {
        var start := now;
        lastTcpConnectMs := 0;
        now := now + c.tcp.value;
        lastTcpConnectMs := now - start;
      }
      if c.setup.Some? {
        var start := now;
        now := now + c.setup.value;
        lastTlsSetupMs := now - start;
      }
      now := now + c.rest;
    }

    method ConnectTls(t: Try, before: Metrics) returns (rc: Code, metrics: Metrics)
      modifies this
      ensures
        var net := NetRun(t.calls, 0, 0, old(lastTcpConnectMs), old(lastTlsSetupMs), handshakeTimeoutMs);
        && rc == net.rc && now == old(now) + net.elapsed
        && metrics == if rc == Success
          then (var handshake := Max(0, net.elapsed - net.tcp);
                before.(tcpConnect := net.tcp, tlsSetup := net.setup, tlsHandshake := handshake,
                        rawHandshake := Max(0, handshake - net.setup)))
          else before.(errorCode := rc, tlsLastError := net.tlsError)
    {
      var start, deadline := now, now + handshakeTimeoutMs;
      ghost var net := NetRun(t.calls, 0, 0, lastTcpConnectMs, lastTlsSetupMs, handshakeTimeoutMs);
      metrics := before;
      var k := 0;
      while true
        invariant start <= now
        invariant NetRun(t.calls, k, now - start, lastTcpConnectMs, lastTlsSetupMs, handshakeTimeoutMs) == net
        invariant metrics == before
        decreases deadline - now
      {
        var c := t.calls(k);
        NetConnect(c);
        if c.rc == Success {
          var netMs := now - start;
          var handshake := Max(0, netMs - lastTcpConnectMs);
          metrics := metrics.(tcpConnect := lastTcpConnectMs, tlsSetup := lastTlsSetupMs,
                              tlsHandshake := handshake, rawHandshake := Max(0, handshake - lastTlsSetupMs));
          return Success, metrics;
        }
        if c.rc != Continue && c.rc != TimedOut {
          return c.rc, metrics.(errorCode := c.rc, tlsLastError := c.tlsError);
        }
        if now >= deadline {
          return TimedOut, metrics.(errorCode := TimedOut, tlsLastError := c.tlsError);
        }
        k := k + 1;
      }
    }

    method ConnectSubscribePublish(t: Try, before: Metrics) returns (rc: Code, metrics: Metrics)
      modifies this`now
      ensures now == old(now) + t.mqttMs && rc == MqttCode(t)
      ensures metrics == if rc == Success then before.(mqttConnect := t.mqttMs) else before.(errorCode := rc)
    {
      var start := now;
      now := now + t.mqttMs;
      if t.connect != Success {
        return t.connect, before.(errorCode := t.connect);
      }
      if t.subscribe != Success {
        return t.subscribe, before.(errorCode := t.subscribe);
      }
      if t.publish != Success {
        return t.publish, before.(errorCode := t.publish);
      }
      return Success, before.(mqttConnect := now - start);
    }

    /** One try; the result depends on the environment alone, not on what earlier tries left. */
    method RunOneAttempt(t: Try) returns (r: Report)
      modifies this
      ensures r == Attempted(t, handshakeTimeoutMs)
      ensures r.rc == Success <==> Succeeds(t, handshakeTimeoutMs)
    {
      SucceedsExactly(t, handshakeTimeoutMs);
      var metrics := ZERO;
      lastTcpConnectMs, lastTlsSetupMs := 0, 0;
      if t.init != Success {
        return Report(t.init, metrics.(errorCode := t.init));
      }
      var start := now;
      now := now + t.lead;
      var rc;
      rc, metrics := ConnectTls(t, metrics);
      if rc == Success {
        rc, metrics := ConnectSubscribePublish(t, metrics);
      }
      now := now + t.tail;
      metrics := metrics.(fullConnect := now - start);
      lastTcpConnectMs, lastTlsSetupMs := 0, 0;
      return Report(rc, metrics);
    }

    /** Stops at the first success. When every try fails it reports the last one, unless that one
        shows no TLS error and an earlier one did: then the first that did. With no try at all
        the caller's metrics are left as they were. */
    method RunWithRetries(tries: nat -> Try, count: int, uninitialised: Metrics) returns (r: Report, used: nat)
      modifies this
      ensures RetryOutcome(tries, count, handshakeTimeoutMs, uninitialised, r, used)
      ensures r.rc == Success <==> AnySucceeds(tries, count, handshakeTimeoutMs)
      ensures forall i: nat :: i < used - 1 ==> !Succeeds(tries(i), handshakeTimeoutMs)
    {
      var firstTlsError := ZERO;
      var haveTlsError := false;
      ghost var firstAt: nat := 0;
      r, used := Report(NetworkError, uninitialised), 0;
      while used < count
        invariant count <= 0 ==> used == 0
        invariant count > 0 ==> used <= count
        invariant used == 0 ==> r == Report(NetworkError, uninitialised)
        invariant forall i: nat :: i < used ==> Attempted(tries(i), handshakeTimeoutMs).rc != Success
        invariant used > 0 ==> r == Attempted(tries(used - 1), handshakeTimeoutMs)
        invariant forall i: nat :: i < used ==> !Succeeds(tries(i), handshakeTimeoutMs)
        invariant haveTlsError ==>
          && firstAt < used && IsFirstTlsError(tries, firstAt, handshakeTimeoutMs)
          && firstTlsError == Attempted(tries(firstAt), handshakeTimeoutMs).metrics
        invariant !haveTlsError ==> forall i: nat :: i < used ==> Attempted(tries(i), handshakeTimeoutMs).metrics.tlsLastError == 0
      {
        r := RunOneAttempt(tries(used));
        assert r.rc == Success ==> Succeeds(tries(used), handshakeTimeoutMs);
        used := used + 1;
        if r.rc == Success {
          return;
        }
        if !haveTlsError && r.metrics.tlsLastError != 0 {
          firstTlsError, haveTlsError, firstAt := r.metrics, true, used - 1;
        }
      }
      if haveTlsError && r.metrics.tlsLastError == 0 {
        FailureCarriesItsCode(tries(firstAt), handshakeTimeoutMs);
        r := Report(firstTlsError.errorCode, firstTlsError);
      }
    }
  }

  ghost predicate IsFirstTlsError(tries: nat -> Try, j: nat, limit: int) {
    && Attempted(tries(j), limit).metrics.tlsLastError != 0
    && forall i: nat :: i < j ==> Attempted(tries(i), limit).metrics.tlsLastError == 0
  }

  /** `r` is what is reported after `count` failed tries. */
  ghost predicate IsReported(tries: nat -> Try, count: int, limit: int, r: Report)
    requires count > 0
  {
    var last := Attempted(tries(count - 1), limit);
    if last.metrics.tlsLastError != 0 || forall i: nat :: i < count ==> Attempted(tries(i), limit).metrics.tlsLastError == 0
    then r == last
    else exists j: nat :: j < count && IsFirstTlsError(tries, j, limit) && r == Attempted(tries(j), limit)
  }

  /** What the retry loop leaves: nothing done without a configured try; the first success; or what
      is reported after `count` failures. */
  ghost predicate RetryOutcome(tries: nat -> Try, count: int, limit: int, uninitialised: Metrics, r: Report, used: nat) {
    if count <= 0 then used == 0 && r == Report(NetworkError, uninitialised)
    else
      && 1 <= used <= count
      && (forall i: nat :: i < used - 1 ==> Attempted(tries(i), limit).rc != Success)
      && (r.rc == Success ==> r == Attempted(tries(used - 1), limit))
      && (r.rc != Success ==>
            && used == count && IsReported(tries, count, limit, r)
            && forall i: nat :: i < count ==> Attempted(tries(i), limit).rc != Success)
  }

  /** The code a try returns and the code it records agree on every path. */
  lemma FailureCarriesItsCode(t: Try, limit: int)
    ensures Attempted(t, limit).metrics.errorCode == Attempted(t, limit).rc
    ensures Attempted(t, limit).rc == Success ==> Attempted(t, limit).metrics.tlsLastError == 0
  {}

  datatype Status = StatusSuccess | StatusTimeout | StatusError

  function StatusOf(rc: Code): Status {
    if rc == Success then StatusSuccess else if rc == TimedOut then StatusTimeout else StatusError
  }

  /** With a try configured the status column follows from the error_code column, whatever the
      tries did. */
  lemma StatusAgreesWithErrorCode(tries: nat -> Try, count: int, limit: int, uninitialised: Metrics, r: Report, used: nat)
    requires count > 0 && RetryOutcome(tries, count, limit, uninitialised, r, used)
    ensures StatusOf(r.rc) == StatusOf(r.metrics.errorCode)
  {
    FailureCarriesItsCode(tries(used - 1), limit);
    FailureCarriesItsCode(tries(count - 1), limit);
    if r.rc != Success && r != Attempted(tries(count - 1), limit) {
      var j: nat :| j < count && IsFirstTlsError(tries, j, limit) && r == Attempted(tries(j), limit);
      FailureCarriesItsCode(tries(j), limit);
    }
  }

  /** The two columns agree whatever the caller's metrics held if and only if a try is configured. */
  lemma StatusAgreesExactly(tries: nat -> Try, count: int, limit: int)
    ensures (forall uninitialised, r, used :: RetryOutcome(tries, count, limit, uninitialised, r, used) ==>
               StatusOf(r.rc) == StatusOf(r.metrics.errorCode))
        <==> count > 0
  {
    if count > 0 {
      forall uninitialised, r, used | RetryOutcome(tries, count, limit, uninitialised, r, used)
        ensures StatusOf(r.rc) == StatusOf(r.metrics.errorCode)
      {
        StatusAgreesWithErrorCode(tries, count, limit, uninitialised, r, used);
      }
    } else {
      assert RetryOutcome(tries, count, limit, ZERO, Report(NetworkError, ZERO), 0);
    }
  }

  /** The last TCP connect and the last TLS setup are disjoint parts of the elapsed time. */
  lemma {:induction false} IntervalsFit(calls: nat -> Call, k: nat, elapsed: nat, tcp: nat, setup: nat, limit: int)
    requires tcp + setup <= elapsed
    ensures var net := NetRun(calls, k, elapsed, tcp, setup, limit); net.tcp + net.setup <= net.elapsed
    decreases limit - elapsed
  {
    var c := calls(k);
    if !Retryable(c) || elapsed + Elapsed(c) >= limit {
    } else {
      IntervalsFit(calls, k + 1, elapsed + Elapsed(c), Latest(c.tcp, tcp), Latest(c.setup, setup), limit);
    }
  }

  function TimeOf(calls: nat -> Call, from: nat, until: nat): nat
    requires from <= until
  {
    if from == until then 0 else TimeOf(calls, from, until - 1) + Elapsed(calls(until - 1))
  }

  /** Duration of the last TCP connect among calls `from`..`to`, or `none` if none connected. */
  function LastTcp(calls: nat -> Call, from: nat, until: nat, none: nat): nat
    requires from <= until
  {
    if from == until then none else Latest(calls(until - 1).tcp, LastTcp(calls, from, until - 1, none))
  }

  function LastSetup(calls: nat -> Call, from: nat, until: nat, none: nat): nat
    requires from <= until
  {
    if from == until then none else Latest(calls(until - 1).setup, LastSetup(calls, from, until - 1, none))
  }

  lemma {:induction false} FirstCall(calls: nat -> Call, from: nat, until: nat, tcp: nat, setup: nat)
    requires from < until
    ensures TimeOf(calls, from, until) == Elapsed(calls(from)) + TimeOf(calls, from + 1, until)
    ensures LastTcp(calls, from, until, tcp) == LastTcp(calls, from + 1, until, Latest(calls(from).tcp, tcp))
    ensures LastSetup(calls, from, until, setup) == LastSetup(calls, from + 1, until, Latest(calls(from).setup, setup))
    decreases until
  {
    if from + 1 == until {
    } else {
      FirstCall(calls, from, until - 1, tcp, setup);
    }
  }

  /** None of these calls ended the loop, and none came too late. */
  predicate KeptTrying(calls: nat -> Call, from: nat, until: nat, elapsed: nat, limit: int) {
    forall i: nat :: from <= i < until ==> Retryable(calls(i)) && elapsed + TimeOf(calls, from, i + 1) < limit
  }

  lemma TriedOnceMore(calls: nat -> Call, k: nat, until: nat, elapsed: nat, limit: int)
    requires Retryable(calls(k)) && elapsed + Elapsed(calls(k)) < limit
    requires KeptTrying(calls, k + 1, until, elapsed + Elapsed(calls(k)), limit)
    ensures KeptTrying(calls, k, until, elapsed, limit)
  {
    forall i: nat | k <= i < until ensures Retryable(calls(i)) && elapsed + TimeOf(calls, k, i + 1) < limit {
      FirstCall(calls, k, i + 1, 0, 0);
    }
  }

  /** The connect loop in closed form: it makes calls `k`..`n`, only the last of which may end it;
      the time is the sum of theirs, and the two intervals are those of the last connect and setup. */
  lemma {:induction false} NetRunInClosedForm(calls: nat -> Call, k: nat, elapsed: nat, tcp: nat, setup: nat, limit: int)
    returns (n: nat)
    ensures k < n && KeptTrying(calls, k, n - 1, elapsed, limit)
    ensures
      var net := NetRun(calls, k, elapsed, tcp, setup, limit);
      && net.elapsed == elapsed + TimeOf(calls, k, n)
      && net.tcp == LastTcp(calls, k, n, tcp) && net.setup == LastSetup(calls, k, n, setup)
      && (if Retryable(calls(n - 1)) then net.rc == TimedOut && net.elapsed >= limit else net.rc == calls(n - 1).rc)
    decreases limit - elapsed
  {
    var c := calls(k);
    if Retryable(c) && elapsed + Elapsed(c) < limit {
      n := NetRunInClosedForm(calls, k + 1, elapsed + Elapsed(c), Latest(c.tcp, tcp), Latest(c.setup, setup), limit);
      FirstCall(calls, k, n, tcp, setup);
      TriedOnceMore(calls, k, n - 1, elapsed, limit);
    } else {
      n := k + 1;
      assert TimeOf(calls, k, k) == 0;
    }
  }

  // ----- when a try succeeds -----

  /** `rc` is the first of `codes` that is not success, or success if there is none. */
  predicate IsFirstFailure(codes: seq<Code>, rc: Code) {
    if rc == Success then forall k :: 0 <= k < |codes| ==> codes[k] == Success
    else exists k :: 0 <= k < |codes| && codes[k] == rc && forall j :: 0 <= j < k ==> codes[j] == Success
  }

  /** The connect loop ends with its `n`-th call: the first that is not tried again, or the one
      during which the time ran out. */
  predicate EndsAt(calls: nat -> Call, n: nat, limit: int) {
    && n > 0 && (!Retryable(calls(n - 1)) || TimeOf(calls, 0, n) >= limit)
    && KeptTrying(calls, 0, n - 1, 0, limit)
  }

  lemma EndsOnce(calls: nat -> Call, m: nat, n: nat, limit: int)
    requires EndsAt(calls, m, limit) && EndsAt(calls, n, limit)
    ensures m == n
  {}

  /** A call that would be tried again but comes too late counts as a timeout. */
  function DecisiveCode(c: Call): Code { if Retryable(c) then TimedOut else c.rc }

  /** Everything a try needs: initialisation, the call that decides the connect loop, and the three
      MQTT exchanges. */
  ghost predicate Succeeds(t: Try, limit: int) {
    && t.init == Success && t.connect == Success && t.subscribe == Success && t.publish == Success
    && exists n: nat :: EndsAt(t.calls, n, limit) && t.calls(n - 1).rc == Success
  }

  /** A try returns the code of the first step that fails. */
  lemma TryReturnsFirstFailure(t: Try, limit: int) returns (n: nat)
    ensures EndsAt(t.calls, n, limit)
    ensures IsFirstFailure([t.init, DecisiveCode(t.calls(n - 1)), t.connect, t.subscribe, t.publish], Attempted(t, limit).rc)
  {
    n := NetRunInClosedForm(t.calls, 0, 0, 0, 0, limit);
    var codes := [t.init, DecisiveCode(t.calls(n - 1)), t.connect, t.subscribe, t.publish];
    var rc := Attempted(t, limit).rc;
    if rc != Success {
      var k := if codes[0] != Success then 0 else if codes[1] != Success then 1
               else if codes[2] != Success then 2 else if codes[3] != Success then 3 else 4;
      assert codes[k] == rc && forall j :: 0 <= j < k ==> codes[j] == Success;
    }
  }

  /** A try succeeds if and only if each of its steps does. */
  lemma SucceedsExactly(t: Try, limit: int)
    ensures Attempted(t, limit).rc == Success <==> Succeeds(t, limit)
  {
    var n := TryReturnsFirstFailure(t, limit);
    var codes := [t.init, DecisiveCode(t.calls(n - 1)), t.connect, t.subscribe, t.publish];
    assert codes[0] == t.init && codes[1] == DecisiveCode(t.calls(n - 1));
    assert codes[2] == t.connect && codes[3] == t.subscribe && codes[4] == t.publish;
    if Succeeds(t, limit) {
      var m: nat :| EndsAt(t.calls, m, limit) && t.calls(m - 1).rc == Success;
      EndsOnce(t.calls, m, n, limit);
    }
  }

  /** Some configured try succeeds. */
  ghost predicate AnySucceeds(tries: nat -> Try, count: int, limit: int) {
    exists i: nat :: i < count && Succeeds(tries(i), limit)
  }

  /** The retry loop reports success if and only if some configured try succeeds. */
  lemma RetriesSucceedExactly(tries: nat -> Try, count: int, limit: int, uninitialised: Metrics, r: Report, used: nat)
    requires RetryOutcome(tries, count, limit, uninitialised, r, used)
    ensures r.rc == Success <==> AnySucceeds(tries, count, limit)
  {
    forall i: nat ensures Attempted(tries(i), limit).rc == Success <==> Succeeds(tries(i), limit) {
      SucceedsExactly(tries(i), limit);
    }
  }

  /** A successful try: TCP, setup and raw handshake add up to the time NetConnect took, all parts
      are non-negative without their clamps, and with MQTT they fit in the full time. Any number
      of reconnects inside the loop is allowed. */
  lemma PhasesAddUp(t: Try, limit: int)
    requires Attempted(t, limit).rc == Success
    ensures
      var m := Attempted(t, limit).metrics;
      var net := NetRun(t.calls, 0, 0, 0, 0, limit);
      && m.tcpConnect == net.tcp && m.tlsSetup == net.setup && m.mqttConnect == t.mqttMs
      && m.tcpConnect + m.tlsSetup + m.rawHandshake == net.elapsed
      && m.tlsHandshake == net.elapsed - m.tcpConnect >= 0
      && m.rawHandshake == m.tlsHandshake - m.tlsSetup >= 0
      && m.tcpConnect + m.tlsSetup + m.rawHandshake + m.mqttConnect <= m.fullConnect
      && m.fullConnect == t.lead + net.elapsed + t.mqttMs + t.tail
  {
    IntervalsFit(t.calls, 0, 0, 0, 0, limit);
  }
}
