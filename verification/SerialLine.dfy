/** The BENCH_ATTEMPT line: printed by the firmware (benchmarking/firmware/src/main.c), read back
    by the host (benchmarking/run_benchmarks.py, parse_attempt_line), also after the loss of one
    byte on the serial link. */
module SerialLine {
  import opened Options
  import opened Text

  type Int32 = x: int | -0x8000_0000 <= x < 0x8000_0000
  type UInt32 = x: int | 0 <= x < 0x1_0000_0000
  type UInt64 = x: int | 0 <= x < 0x1_0000_0000_0000_0000

  datatype Outcome = Success | Timeout | Error

  datatype Message = Measured(setup: Int32, raw: Int32) | TlsError(code: Int32) | ConnectFailed

  datatype Record = Record(
    index: Int32, warmup: Int32, outcome: Outcome,
    tcp: Int32, tls: Int32, raw: Int32, mqtt: Int32, full: Int32, errorCode: Int32, message: Message,
    wallCycles: UInt64, cpuCycles: UInt64, cpuMs: UInt64, cpuPct: UInt32,
    wolfsslPeak: UInt32, wolfsslFailures: UInt32, heapCurrent: UInt32, heapPeak: UInt32)

  /** The host's row: the text of the eighteen columns. */
  datatype Row = Row(index: string, warmup: string, status: string, tcp: string, tls: string, raw: string,
                     mqtt: string, full: string, errorCode: string, message: string, resources: seq<string>)

  // ----- printing -----

  const MESSAGE_SIZE := 80

  function StatusText(o: Outcome): string {
    match o case Success => "success" case Timeout => "timeout" case Error => "error"
  }

  function MessageText(m: Message): string {
    match m
    case Measured(setup, raw) => "ok;tls_setup_ms=" + Decimal(setup) + ";raw_handshake_ms=" + Decimal(raw)
    case TlsError(code) => "tls_last_error=" + Decimal(code)
    case ConnectFailed => "connect_failed"
  }

  /** snprintf into a buffer of MESSAGE_SIZE bytes. */
  function Snprintf(text: string): string {
    if |text| < MESSAGE_SIZE then text else text[..MESSAGE_SIZE - 1]
  }

  function Decimals(ns: seq<int>): seq<string> {
    seq(|ns|, k requires 0 <= k < |ns| => Decimal(ns[k]))
  }

  function Timings(r: Record): seq<int> { [r.tcp, r.tls, r.raw, r.mqtt, r.full, r.errorCode] }

  function Resources(r: Record): seq<int> {
    [r.wallCycles, r.cpuCycles, r.cpuMs, r.cpuPct, r.wolfsslPeak, r.wolfsslFailures, r.heapCurrent, r.heapPeak]
  }

  function Fields(r: Record): seq<string> {
    Decimals([r.index, r.warmup]) + [StatusText(r.outcome)] + Decimals(Timings(r)) +
    [Snprintf(MessageText(r.message))] + Decimals(Resources(r))
  }

  const MARKER := "BENCH_ATTEMPT,"

  function Payload(r: Record): string { Join(Fields(r), ",") }

  // ----- parsing -----

  predicate InClass(c: char) { 'A' <= c <= 'Z' || c == '_' }

  /** End of the longest stretch of [A-Z_] starting at `from`. */
  function RunEnd(s: string, from: nat): (e: nat)
    requires from <= |s|
    ensures from <= e <= |s| && (forall k :: from <= k < e ==> InClass(s[k])) && (e < |s| ==> !InClass(s[e]))
    decreases |s| - from
  {
    if from < |s| && InClass(s[from]) then RunEnd(s, from + 1) else from
  }

  /** End of the match of B[A-Z_]*ATT[A-Z_]*, that starts at `i`, if there is one. */
  function MatchEnd(s: string, i: nat): Option<nat>
    requires i < |s|
  {
    if s[i] != 'B' then None
    else
      var e := RunEnd(s, i + 1);
      if e < |s| && s[e] == ',' && Find("ATT", s[i + 1..e]).Some? then Some(e + 1) else None
  }

  function Search(s: string, from: nat): Option<nat>
    requires from <= |s|
    decreases |s| - from
  {
    if from == |s| then None
    else if MatchEnd(s, from).Some? then MatchEnd(s, from) else Search(s, from + 1)
  }

  /** Text after the marker: the exact marker, two known one-byte losses, then the pattern. */
  function AfterMarker(line: string): Option<string> {
    if Find(MARKER, line).Some? then Some(line[Find(MARKER, line).value + |MARKER|..])
    else if Find("BENCHATTEMPT,", line).Some? then Some(line[Find("BENCHATTEMPT,", line).value + 13..])
    else if Find("BENCH_ATTEPT,", line).Some? then Some(line[Find("BENCH_ATTEPT,", line).value + 13..])
    else match Search(line, 0)
      case None => None
      case Some(e) => if e <= |line| then Some(line[e..]) else None
  }

  function RowOfParts(parts: seq<string>): Option<Row> {
    if |parts| < 9 || parts[2] !in {"success", "error", "timeout", "unsupported"} then None
    else
      var hasRaw := |parts| >= 18;
      var m := if hasRaw then 6 else 5;
      Some(Row(parts[0], parts[1], parts[2], parts[3], parts[4], if hasRaw then parts[5] else "",
               parts[m], parts[m + 1], parts[m + 2], parts[m + 3],
               seq(8, k requires 0 <= k < 8 => if m + 4 + k < |parts| then parts[m + 4 + k] else "")))
  }

  function ParseAttemptLine(line: string): Option<Row> {
    match AfterMarker(line)
    case None => None
    case Some(payload) => RowOfParts(Split(Strip(payload), ','))
  }

  // ----- the pattern means what the regular expression says -----

  /** `s` is B x ATT y , with x and y over [A-Z_]. */
  ghost predicate InPattern(s: string) {
    exists x, y: string ::
      s == "B" + x + "ATT" + y + "," && (forall c <- x :: InClass(c)) && (forall c <- y :: InClass(c))
  }

  lemma RunEndIs(s: string, from: nat, e: nat)
    requires from <= e < |s| && !InClass(s[e]) && forall j :: from <= j < e ==> InClass(s[j])
    ensures RunEnd(s, from) == e
  {}

  lemma PiecesToEnd(s: string, i: nat, x: string, y: string, e: nat)
    requires i + 1 < e <= |s| && s[i] == 'B' && s[e - 1] == ',' && s[i + 1..e - 1] == x + "ATT" + y
    requires (forall k :: 0 <= k < |x| ==> InClass(x[k])) && (forall k :: 0 <= k < |y| ==> InClass(y[k]))
    ensures MatchEnd(s, i) == Some(e)
  {
    var body := x + "ATT" + y;
    assert forall k :: 0 <= k < |body| ==> InClass(body[k]);
    assert forall k :: i + 1 <= k < e - 1 ==> s[k] == body[k - i - 1];
    RunEndIs(s, i + 1, e - 1);
    assert body[|x|..|x| + 3] == "ATT";
    assert OccursAt("ATT", body, |x|);
  }

  lemma PatternToEnd(s: string, i: nat, e: nat)
    requires i < e <= |s| && InPattern(s[i..e])
    ensures MatchEnd(s, i) == Some(e)
  {
    var x, y: string :|
      s[i..e] == "B" + x + "ATT" + y + "," && (forall c <- x :: InClass(c)) && (forall c <- y :: InClass(c));
    var body := x + "ATT" + y;
    Regroup(x, y);
    assert s[i..e] == ['B'] + body + [','];
    var t := ['B'] + body + [','];
    assert |t| == e - i && forall k :: 0 <= k < |t| ==> s[i + k] == s[i..e][k] == t[k];
    assert s[i] == s[i + 0] && s[e - 1] == s[i + (e - i - 1)];
    assert |body| == e - i - 2;
    forall k | 0 <= k < |body| ensures s[i + 1 + k] == body[k] { assert s[i + (k + 1)] == t[k + 1]; }
    assert s[i + 1..e - 1] == body;
    PiecesToEnd(s, i, x, y, e);
  }

  lemma EndToPattern(s: string, i: nat)
    requires i < |s| && MatchEnd(s, i).Some?
    ensures var e := MatchEnd(s, i).value; i < e <= |s| && InPattern(s[i..e])
  {
    var e := MatchEnd(s, i).value;
    var body := s[i + 1..e - 1];
    var at := Find("ATT", body).value;
    var x, y := body[..at], body[at + 3..];
    assert body == x + body[at..at + 3] + y;
    assert s[i..e] == ['B'] + body + [','];
    assert forall k :: 0 <= k < |body| ==> body[k] == s[i + 1 + k] && InClass(body[k]);
    BuildPattern(s[i..e], x, y);
  }

  lemma BuildPattern(s: string, x: string, y: string)
    requires s == ['B'] + (x + "ATT" + y) + [',']
    requires (forall k :: 0 <= k < |x| ==> InClass(x[k])) && (forall k :: 0 <= k < |y| ==> InClass(y[k]))
    ensures InPattern(s)
  {
    Regroup(x, y);
  }

  lemma Regroup(x: string, y: string)
    ensures "B" + x + "ATT" + y + "," == ['B'] + (x + "ATT" + y) + [',']
  {
    var left, right := "B" + x + "ATT" + y + ",", ['B'] + (x + "ATT" + y) + [','];
    assert |left| == |right|;
    forall k | 0 <= k < |left| ensures left[k] == right[k] {}
  }

  /** A match starting at `i` ends at `e` exactly when the text between is in the pattern. */
  lemma MatchEndIsPattern(s: string, i: nat, e: nat)
    requires i < e <= |s|
    ensures MatchEnd(s, i) == Some(e) <==> InPattern(s[i..e])
  {
    if InPattern(s[i..e]) { PatternToEnd(s, i, e); }
    if MatchEnd(s, i) == Some(e) { EndToPattern(s, i); }
  }

  // ----- what printed fields look like -----

  predicate FieldChar(c: char) {
    '0' <= c <= '9' || 'a' <= c <= 'z' || c == '-' || c == ';' || c == '=' || c == '_'
  }

  predicate Plain(s: string) { s != "" && forall k :: 0 <= k < |s| ==> FieldChar(s[k]) }

  predicate AllPlain(parts: seq<string>) { forall k :: 0 <= k < |parts| ==> Plain(parts[k]) }

  lemma DecimalPlain(n: int)
    ensures Plain(Decimal(n)) && (Decimal(n)[0] == '-' || '0' <= Decimal(n)[0] <= '9')
    ensures '0' <= Decimal(n)[|Decimal(n)| - 1] <= '9'
  {
    var d := Digits(if n < 0 then -n else n);
    DigitsShape(if n < 0 then -n else n);
    assert Decimal(n) == d || Decimal(n) == "-" + d;
    assert forall k :: 0 <= k < |d| ==> d[k] in d;
  }

  lemma Int32Length(n: Int32)
    ensures |Decimal(n)| <= 11
  {
    assert Power(10) == 10_000_000_000 by {
      assert Power(5) == 100000;
    }
    var magnitude: int := if n < 0 then -(n as int) else n;
    DigitsLength(magnitude, Power(10), 10);
  }

  lemma PlainConcat(a: string, b: string)
    requires Plain(a) && Plain(b)
    ensures Plain(a + b)
  {}

  /** The message buffer never truncates. */
  lemma MessageFits(m: Message)
    ensures |MessageText(m)| < 80 && Snprintf(MessageText(m)) == MessageText(m) && Plain(MessageText(m))
  {
    match m
    case Measured(setup, raw) =>
      Int32Length(setup);
      Int32Length(raw);
      DecimalPlain(setup);
      DecimalPlain(raw);
      PlainConcat("ok;tls_setup_ms=", Decimal(setup));
      PlainConcat("ok;tls_setup_ms=" + Decimal(setup), ";raw_handshake_ms=");
      PlainConcat("ok;tls_setup_ms=" + Decimal(setup) + ";raw_handshake_ms=", Decimal(raw));
    case TlsError(code) =>
      Int32Length(code);
      DecimalPlain(code);
      PlainConcat("tls_last_error=", Decimal(code));
    case ConnectFailed =>
  }

  lemma DecimalsPlain(ns: seq<int>)
    ensures AllPlain(Decimals(ns))
  {
    forall k | 0 <= k < |ns| ensures Plain(Decimals(ns)[k]) { DecimalPlain(ns[k]); }
  }

  lemma FieldsPlain(r: Record)
    ensures AllPlain(Fields(r)) && |Fields(r)| == 18
  {
    DecimalsPlain([r.index, r.warmup]);
    DecimalsPlain(Timings(r));
    DecimalsPlain(Resources(r));
    MessageFits(r.message);
    assert AllPlain([StatusText(r.outcome)]) && AllPlain([Snprintf(MessageText(r.message))]);
  }

  predicate PlainList(s: string) {
    s != "" && FieldChar(s[0]) && FieldChar(s[|s| - 1]) && forall k :: 0 <= k < |s| ==> FieldChar(s[k]) || s[k] == ','
  }

  lemma {:induction false} JoinPlain(parts: seq<string>)
    requires parts != [] && AllPlain(parts)
    ensures PlainList(Join(parts, ",")) && Join(parts, ",")[0] == parts[0][0]
  {
    assert Plain(parts[0]);
    if |parts| <= 1 {
    } else {
      JoinPlain(parts[1..]);
    }
  }

  lemma PayloadShape(r: Record)
    ensures PlainList(Payload(r)) && (Payload(r)[0] == '-' || '0' <= Payload(r)[0] <= '9')
  {
    FieldsPlain(r);
    JoinPlain(Fields(r));
    DecimalPlain(r.index);
    assert Fields(r)[0] == Decimal(r.index);
  }

  // ----- round trip -----

  function RowOf(r: Record): Row {
    Row(Decimal(r.index), Decimal(r.warmup), StatusText(r.outcome),
        Decimal(r.tcp), Decimal(r.tls), Decimal(r.raw), Decimal(r.mqtt), Decimal(r.full), Decimal(r.errorCode),
        MessageText(r.message), Decimals(Resources(r)))
  }

  lemma PlainHasNoComma(parts: seq<string>)
    requires AllPlain(parts)
    ensures forall p <- parts :: ',' !in p
  {
    forall p | p in parts ensures ',' !in p {
      var k :| 0 <= k < |parts| && parts[k] == p;
      assert Plain(parts[k]);
    }
  }

  lemma FieldsInOrder(r: Record)
    ensures |Fields(r)| == 18
    ensures Fields(r)[..3] == [Decimal(r.index), Decimal(r.warmup), StatusText(r.outcome)]
    ensures Fields(r)[3..9] == Decimals(Timings(r))
    ensures Fields(r)[9] == Snprintf(MessageText(r.message))
    ensures Fields(r)[10..] == Decimals(Resources(r))
  {}

  lemma FieldsToRow(r: Record)
    ensures RowOfParts(Fields(r)) == Some(RowOf(r))
  {
    MessageFits(r.message);
    FieldsInOrder(r);
    var parts := Fields(r);
    var head, timings := parts[..3], parts[3..9];
    assert parts[0] == head[0] && parts[1] == head[1] && parts[2] == head[2];
    assert parts[3] == timings[0] && parts[4] == timings[1] && parts[5] == timings[2];
    assert parts[6] == timings[3] && parts[7] == timings[4] && parts[8] == timings[5];
    assert parts[2] in {"success", "error", "timeout", "unsupported"};
    var row := RowOfParts(parts);
    assert row.Some?;
    assert row.value.resources == parts[10..];
  }

  lemma PayloadParses(r: Record, tail: string)
    requires forall c <- tail :: IsSpace(c)
    ensures RowOfParts(Split(Strip(Payload(r) + tail), ',')) == Some(RowOf(r))
  {
    PayloadShape(r);
    StripTail(Payload(r), tail);
    FieldsPlain(r);
    PlainHasNoComma(Fields(r));
    SplitJoin(Fields(r), ',');
    FieldsToRow(r);
  }

  /** The marker cannot begin inside a marker-free prefix. */
  lemma NotInPrefix(prefix: string, rest: string, i: nat)
    requires Find(MARKER, prefix) == None && i < |prefix|
    ensures !OccursAt(MARKER, prefix + MARKER + rest, i)
  {
    var line := prefix + MARKER + rest;
    if i + |MARKER| <= |prefix| {
      assert line[i..i + |MARKER|] == prefix[i..i + |MARKER|];
      assert !OccursAt(MARKER, prefix, i);
    } else {
      var k := |prefix| - i;
      assert line[i + k] == MARKER[0] == 'B' && MARKER[k] != 'B';
      assert line[i..i + |MARKER|][k] == line[i + k];
    }
  }

  lemma MarkerIsFirst(prefix: string, rest: string)
    requires Find(MARKER, prefix) == None
    ensures Find(MARKER, prefix + MARKER + rest) == Some(|prefix|)
  {
    var line := prefix + MARKER + rest;
    assert OccursAt(MARKER, line, |prefix|);
    forall i: nat | i < |prefix| ensures !OccursAt(MARKER, line, i) { NotInPrefix(prefix, rest, i); }
  }

  /** Printing any record and parsing the line gives back its eighteen columns, after any prefix
      without the marker and before any whitespace. */
  lemma RoundTrip(prefix: string, r: Record, tail: string)
    requires Find(MARKER, prefix) == None && forall c <- tail :: IsSpace(c)
    ensures ParseAttemptLine(prefix + MARKER + (Payload(r) + tail)) == Some(RowOf(r))
  {
    MarkerIsFirst(prefix, Payload(r) + tail);
    PayloadParses(r, tail);
    var line := prefix + MARKER + (Payload(r) + tail);
    assert line[|prefix| + |MARKER|..] == Payload(r) + tail;
  }

  /** What a row holds of the fields of a line; lines of fewer than eighteen lack the raw handshake. */
  predicate HoldsFields(row: Row, parts: seq<string>)
    requires |parts| >= 9
  {
    var m := if |parts| >= 18 then 6 else 5;
    && row.index == parts[0] && row.warmup == parts[1] && row.status == parts[2] && row.tcp == parts[3] && row.tls == parts[4]
    && row.raw == (if |parts| >= 18 then parts[5] else "")
    && row.mqtt == parts[m] && row.full == parts[m + 1] && row.errorCode == parts[m + 2] && row.message == parts[m + 3]
    && |row.resources| == 8
    && forall k :: 0 <= k < 8 ==> row.resources[k] == if m + 4 + k < |parts| then parts[m + 4 + k] else ""
  }

  lemma RowOfPartsMeans(parts: seq<string>)
    ensures
      var row := RowOfParts(parts);
      && (row.Some? <==> |parts| >= 9 && parts[2] in ["success", "error", "timeout", "unsupported"])
      && (row.Some? ==> HoldsFields(row.value, parts))
  {}

  /** Any line with the marker, printed by this firmware or not: a row with the line's fields if there
      are nine of them and the third is a known status, otherwise none. */
  lemma AnyLineParses(prefix: string, parts: seq<string>, tail: string)
    requires Find(MARKER, prefix) == None && forall c <- tail :: IsSpace(c)
    requires parts != [] && forall p <- parts :: ',' !in p
    requires var body := Join(parts, ","); body != "" && !IsSpace(body[0]) && !IsSpace(body[|body| - 1])
    ensures
      var row := ParseAttemptLine(prefix + MARKER + (Join(parts, ",") + tail));
      && (row.Some? <==> |parts| >= 9 && parts[2] in ["success", "error", "timeout", "unsupported"])
      && (row.Some? ==> HoldsFields(row.value, parts))
  {
    var body := Join(parts, ",");
    var line := prefix + MARKER + (body + tail);
    MarkerIsFirst(prefix, body + tail);
    assert line[|prefix| + |MARKER|..] == body + tail;
    StripTail(body, tail);
    SplitJoin(parts, ',');
    RowOfPartsMeans(parts);
  }

  /** Every column holds its own field of the record. */
  lemma ColumnsDetermineNumbers(r: Record)
    ensures
      var row := RowOf(r);
      && ReadInt(row.index) == r.index && ReadInt(row.warmup) == r.warmup
      && ReadInt(row.tcp) == r.tcp && ReadInt(row.tls) == r.tls && ReadInt(row.raw) == r.raw
      && ReadInt(row.mqtt) == r.mqtt && ReadInt(row.full) == r.full && ReadInt(row.errorCode) == r.errorCode
      && row.status == match r.outcome case Success => "success" case Timeout => "timeout" case Error => "error"
    ensures ResourcesRead(RowOf(r).resources, r)
  {
    forall n: int ensures ReadInt(Decimal(n)) == n { ReadDecimal(n); }
    ResourceColumns(r);
  }

  predicate ResourcesRead(columns: seq<string>, r: Record) {
    && |columns| == 8
    && ReadInt(columns[0]) == r.wallCycles && ReadInt(columns[1]) == r.cpuCycles
    && ReadInt(columns[2]) == r.cpuMs && ReadInt(columns[3]) == r.cpuPct
    && ReadInt(columns[4]) == r.wolfsslPeak && ReadInt(columns[5]) == r.wolfsslFailures
    && ReadInt(columns[6]) == r.heapCurrent && ReadInt(columns[7]) == r.heapPeak
  }

  lemma ResourceColumns(r: Record)
    ensures ResourcesRead(Decimals(Resources(r)), r)
  {
    var ns, columns := Resources(r), Decimals(Resources(r));
    forall k | 0 <= k < 8 ensures ReadInt(columns[k]) == ns[k] { ReadDecimal(ns[k]); }
  }

  /** `part` is `key=number`. */
  predicate Assigns(part: string, key: string, number: int) {
    var sides := Split(part, '=');
    |sides| == 2 && sides[0] == key && ReadInt(sides[1]) == number
  }

  lemma AssignsDecimal(key: string, n: int)
    requires '=' !in key
    ensures Assigns(key + "=" + Decimal(n), key, n) && ';' !in Decimal(n)
  {
    DecimalPlain(n);
    ReadDecimal(n);
    DigitsShape(if n < 0 then -n else n);
    assert key + "=" + Decimal(n) == key + ['='] + Decimal(n);
    SplitField(key, Decimal(n), '=');
    SplitField(Decimal(n), "", '=');
  }

  /** The message names its numbers: both phases of a success, the last TLS error of a failure. */
  lemma MessageNamesNumbers(m: Message)
    ensures
      var parts := Split(MessageText(m), ';');
      match m
      case Measured(setup, raw) =>
        |parts| == 3 && parts[0] == "ok" && Assigns(parts[1], "tls_setup_ms", setup) && Assigns(parts[2], "raw_handshake_ms", raw)
      case TlsError(code) => |parts| == 1 && Assigns(parts[0], "tls_last_error", code)
      case ConnectFailed => parts == ["connect_failed"]
  {
    match m
    case Measured(setup, raw) =>
      var first, second := "tls_setup_ms" + "=" + Decimal(setup), "raw_handshake_ms" + "=" + Decimal(raw);
      AssignsDecimal("tls_setup_ms", setup);
      AssignsDecimal("raw_handshake_ms", raw);
      MeasuredText(setup, raw);
      SplitField("ok", first + [';'] + second, ';');
      SplitField(first, second, ';');
      SplitField(second, "", ';');
    case TlsError(code) =>
      AssignsDecimal("tls_last_error", code);
      assert "tls_last_error=" == "tls_last_error" + "=";
      SplitField("tls_last_error" + "=" + Decimal(code), "", ';');
    case ConnectFailed =>
      SplitField("connect_failed", "", ';');
  }

  lemma Labels()
    ensures "ok;tls_setup_ms=" == "ok" + [';'] + ("tls_setup_ms" + "=")
    ensures ";raw_handshake_ms=" == [';'] + ("raw_handshake_ms" + "=")
  {}

  lemma Reassociate(ok: string, sep: string, key: string, a: string, key': string, b: string)
    ensures ok + sep + key + a + (sep + key') + b == ok + sep + (key + a + sep + (key' + b))
  {}

  lemma MeasuredText(setup: Int32, raw: Int32)
    ensures MessageText(Measured(setup, raw))
         == "ok" + [';'] + ("tls_setup_ms" + "=" + Decimal(setup) + [';'] + ("raw_handshake_ms" + "=" + Decimal(raw)))
  {
    Labels();
    Reassociate("ok", [';'], "tls_setup_ms" + "=", Decimal(setup), "raw_handshake_ms" + "=", Decimal(raw));
  }

  // ----- one lost byte -----

  predicate FreeOfB(s: string) { forall k :: 0 <= k < |s| ==> s[k] != 'B' }

  /** The marker without its byte `k`. */
  function MarkerWithout(k: nat): string
    requires k < |MARKER|
  {
    MARKER[..k] + MARKER[k + 1..]
  }

  /** `s` holds no B except perhaps at `at`. */
  predicate OnlyB(s: string, at: int) { forall k :: 0 <= k < |s| && k != at ==> s[k] != 'B' }

  lemma OccursHead(sub: string, s: string, i: int)
    requires sub != "" && OccursAt(sub, s, i)
    ensures s[i] == sub[0]
  {
    assert s[i] == s[i..i + |sub|][0];
  }

  /** A text starting with B occurs at the only B or nowhere. */
  lemma OnlyAt(sub: string, s: string, at: int)
    requires sub != "" && sub[0] == 'B' && OnlyB(s, at)
    ensures Find(sub, s) == if 0 <= at && OccursAt(sub, s, at) then Some(at) else None
  {
    forall i | OccursAt(sub, s, i) ensures i == at {
      OccursHead(sub, s, i);
    }
  }

  lemma {:induction false} SearchOnlyAt(s: string, from: nat, at: int)
    requires from <= |s| && OnlyB(s, at)
    ensures Search(s, from) == if from <= at < |s| then MatchEnd(s, at) else None
    decreases |s| - from
  {
    if from >= |s| {
    } else {
      SearchOnlyAt(s, from + 1, at);
    }
  }

  /** No one-byte loss turns the marker into another one, except the two listed. */
  lemma OnlyListedLosses(k: nat)
    requires k < |MARKER|
    ensures MarkerWithout(k) == "BENCHATTEMPT," <==> k == 5
    ensures MarkerWithout(k) == "BENCH_ATTEPT," <==> k == 10
  {
    var m := MarkerWithout(k);
    if k <= 5 { assert m[5] == MARKER[6]; } else { assert m[5] == MARKER[5]; }
    if k < 10 { assert m[9] == MARKER[10]; } else { assert m[9] == MARKER[9]; }
    if k == 5 { assert m == "BENCHATTEMPT,"; }
    if k == 10 { assert m == "BENCH_ATTEPT,"; }
    if k < 5 { assert m[k] == MARKER[k + 1]; }
    if k > 10 { assert m[10] == 'M'; }
  }

  lemma WithoutAt(k: nat)
    requires k < |MARKER|
    ensures |MarkerWithout(k)| == 13
    ensures forall j :: 0 <= j < 13 ==> MarkerWithout(k)[j] == if j < k then MARKER[j] else MARKER[j + 1]
    ensures forall j :: 1 <= j < |MARKER| ==> MARKER[j] != 'B' && (InClass(MARKER[j]) <==> j < 13)
  {}

  /** ATT survives inside the marker unless one of its own letters is lost. */
  lemma AttSurvives(k: nat)
    requires 1 <= k <= 12
    ensures Find("ATT", MarkerWithout(k)[1..12]).Some? <==> k !in {6, 7, 8}
  {
    WithoutAt(k);
    var body := MarkerWithout(k)[1..12];
    assert forall j :: 0 <= j < 11 ==> body[j] == if j + 1 < k then MARKER[j + 1] else MARKER[j + 2];
    if k < 6 || k > 8 {
      var i := if k < 6 then 4 else 5;
      assert body[i] == 'A' && body[i + 1] == 'T' && body[i + 2] == 'T';
      assert body[i..i + 3] == "ATT";
      assert OccursAt("ATT", body, i);
    } else {
      forall i | 0 <= i <= 8 ensures !OccursAt("ATT", body, i) {
        assert body[i] == 'A' ==> i == 5 && body[i + 2] == 'E';
        assert body[i..i + 3][2] == body[i + 2] && body[i..i + 3][0] == body[i];
      }
    }
  }

  ghost predicate LossyLine(line: string, prefix: string, k: nat, rest: string) {
    && k < |MARKER| && FreeOfB(prefix) && FreeOfB(rest)
    && rest != "" && rest[0] != ',' && !InClass(rest[0])
    && line == prefix + MarkerWithout(k) + rest
  }

  lemma LossyB(line: string, prefix: string, k: nat, rest: string)
    requires LossyLine(line, prefix, k, rest)
    ensures OnlyB(line, if k == 0 then -1 else |prefix|)
  {
    WithoutAt(k);
  }

  lemma LossyMarkers(line: string, prefix: string, k: nat, rest: string)
    requires LossyLine(line, prefix, k, rest)
    ensures Find(MARKER, line) == None
    ensures Find("BENCHATTEMPT,", line) == if k == 5 then Some(|prefix|) else None
    ensures Find("BENCH_ATTEPT,", line) == if k == 10 then Some(|prefix|) else None
  {
    LossyB(line, prefix, k, rest);
    var at := if k == 0 then -1 else |prefix|;
    OnlyAt(MARKER, line, at);
    OnlyAt("BENCHATTEMPT,", line, at);
    OnlyAt("BENCH_ATTEPT,", line, at);
    OnlyListedLosses(k);
    assert line[|prefix|..|prefix| + 13] == MarkerWithout(k);
    assert line[|prefix|..|prefix| + 14][13] == rest[0];
  }

  lemma LossyMatch(line: string, prefix: string, k: nat, rest: string)
    requires LossyLine(line, prefix, k, rest) && k > 0
    ensures MatchEnd(line, |prefix|) == if k <= 12 && k !in {6, 7, 8} then Some(|prefix| + 13) else None
  {
    WithoutAt(k);
    var at, m := |prefix|, MarkerWithout(k);
    assert forall j :: at <= j < at + 13 ==> line[j] == m[j - at];
    assert line[at + 13] == rest[0];
    if k == 13 {
      RunEndIs(line, at + 1, at + 13);
    } else {
      RunEndIs(line, at + 1, at + 12);
      assert line[at + 1..at + 12] == m[1..12];
      AttSurvives(k);
    }
  }

  lemma LossySearch(line: string, prefix: string, k: nat, rest: string)
    requires LossyLine(line, prefix, k, rest)
    ensures Search(line, 0) == if 1 <= k <= 12 && k !in {6, 7, 8} then Some(|prefix| + 13) else None
  {
    LossyB(line, prefix, k, rest);
    SearchOnlyAt(line, 0, if k == 0 then -1 else |prefix|);
    if k > 0 { LossyMatch(line, prefix, k, rest); }
  }

  lemma RestShape(r: Record, tail: string)
    requires forall c <- tail :: IsSpace(c)
    ensures var rest := Payload(r) + tail; rest != "" && FreeOfB(rest) && rest[0] != ',' && !InClass(rest[0])
  {
    PayloadShape(r);
    var rest := Payload(r) + tail;
    forall j | 0 <= j < |rest| ensures rest[j] != 'B' {
      if j >= |Payload(r)| { assert rest[j] in tail; }
    }
  }

  /** Losing any one byte of the marker, after a prefix without B: the record is still read in
      full exactly when the byte is at position 1-5 or 9-12; otherwise the line gives no record,
      never a wrong one. */
  lemma OneByteLoss(prefix: string, k: nat, r: Record, tail: string)
    requires k < |MARKER| && FreeOfB(prefix) && forall c <- tail :: IsSpace(c)
    ensures ParseAttemptLine(prefix + MarkerWithout(k) + (Payload(r) + tail))
         == if 1 <= k <= 5 || 9 <= k <= 12 then Some(RowOf(r)) else None
  {
    var rest := Payload(r) + tail;
    var line := prefix + MarkerWithout(k) + rest;
    RestShape(r, tail);
    PayloadParses(r, tail);
    assert LossyLine(line, prefix, k, rest);
    LossyMarkers(line, prefix, k, rest);
    LossySearch(line, prefix, k, rest);
    assert line[|prefix| + 13..] == rest;
  }
}
