/** From the retry loop to the host's row: what a line that was printed and read back says about
    the attempt behind it (benchmarking/firmware/src/main.c, main; benchmarking/run_benchmarks.py,
    parse_attempt_line). */
module AttemptLine {
  import opened Options
  import opened Text
  import Engine = AttemptEngine
  import opened SerialLine

  /** How wolfMQTT numbers its codes: success and timeout have numbers of their own. */
  ghost predicate Numbering(number: Engine.Code -> Int32) {
    forall c ::
      && (number(c) == number(Engine.Success) ==> c == Engine.Success)
      && (number(c) == number(Engine.TimedOut) ==> c == Engine.TimedOut)
  }

  /** The record main prints for a report; index, warm-up flag and resource columns are free. */
  predicate Prints(line: Record, r: Engine.Report, number: Engine.Code -> Int32) {
    var m := r.metrics;
    && line.outcome == (match Engine.StatusOf(r.rc)
                        case StatusSuccess => Success case StatusTimeout => Timeout case StatusError => Error)
    && line.tcp == m.tcpConnect && line.tls == m.tlsHandshake && line.raw == m.rawHandshake
    && line.mqtt == m.mqttConnect && line.full == m.fullConnect && line.errorCode == number(m.errorCode)
    && match line.message
       case Measured(setup, raw) => r.rc == Engine.Success && setup == m.tlsSetup && raw == m.rawHandshake
       case TlsError(code) => r.rc != Engine.Success && m.tlsLastError != 0 && code == m.tlsLastError
       case ConnectFailed => r.rc != Engine.Success && m.tlsLastError == 0
  }

  /** The status text that belongs to an error_code column. */
  function StatusFor(errorCode: int, number: Engine.Code -> Int32): string {
    if errorCode == number(Engine.Success) then "success"
    else if errorCode == number(Engine.TimedOut) then "timeout" else "error"
  }

  /** The phases of a successful attempt fit into its full time, as the host reads them. */
  predicate PhasesFit(row: Row) {
    var tcp, tls, raw, mqtt, full := ReadInt(row.tcp), ReadInt(row.tls), ReadInt(row.raw), ReadInt(row.mqtt), ReadInt(row.full);
    0 <= tcp && 0 <= raw <= tls && 0 <= mqtt && tcp + tls + mqtt <= full
  }

  lemma RowIsConsistent(tries: nat -> Engine.Try, count: int, limit: int, uninitialised: Engine.Metrics,
                        r: Engine.Report, used: nat, number: Engine.Code -> Int32, line: Record)
    requires count > 0 && Engine.RetryOutcome(tries, count, limit, uninitialised, r, used)
    requires Numbering(number) && Prints(line, r, number)
    ensures RowOf(line).status == StatusFor(line.errorCode, number)
    ensures line.outcome == Success <==> Engine.AnySucceeds(tries, count, limit)
    ensures line.outcome == Success ==> line.tcp + line.tls + line.mqtt <= line.full
    ensures line.outcome == Success ==> 0 <= line.tcp && 0 <= line.raw <= line.tls && 0 <= line.mqtt
  {
    Engine.StatusAgreesWithErrorCode(tries, count, limit, uninitialised, r, used);
    Engine.RetriesSucceedExactly(tries, count, limit, uninitialised, r, used);
    if r.rc == Engine.Success {
      Engine.PhasesAddUp(tries(used - 1), limit);
    }
  }

  /** Whatever the tries did, the row the host reads has the status its error_code column calls for,
      which is success exactly when some try got through every step; its time columns then fit. */
  lemma ReadRowIsConsistent(tries: nat -> Engine.Try, count: int, limit: int, uninitialised: Engine.Metrics,
                            r: Engine.Report, used: nat, number: Engine.Code -> Int32,
                            line: Record, prefix: string, tail: string)
    requires count > 0 && Engine.RetryOutcome(tries, count, limit, uninitialised, r, used)
    requires Numbering(number) && Prints(line, r, number)
    requires Find(MARKER, prefix) == None && forall c <- tail :: IsSpace(c)
    ensures
      var row := ParseAttemptLine(prefix + MARKER + (Payload(line) + tail));
      && row.Some? && row.value.status == StatusFor(ReadInt(row.value.errorCode), number)
      && (row.value.status == "success" <==> Engine.AnySucceeds(tries, count, limit))
      && (row.value.status == "success" ==> PhasesFit(row.value))
  {
    RoundTrip(prefix, line, tail);
    ColumnsDetermineNumbers(line);
    RowIsConsistent(tries, count, limit, uninitialised, r, used, number, line);
    StatusTextsDiffer();
  }

  lemma StatusTextsDiffer()
    ensures "success" != "timeout" && "success" != "error" && "timeout" != "error"
  {
    assert |"success"| == 7 && |"timeout"| == 7 && |"error"| == 5;
    assert "success"[0] == 's' && "timeout"[0] == 't';
  }
}
