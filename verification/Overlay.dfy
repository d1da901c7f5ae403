/** The configuration overlay a firmware build is made with, and a reader for it: every symbol reads
    back as the case's or the argument's own value
    (benchmarking/run_benchmarks.py, build_firmware). */
module Overlay {
  import opened Options
  import opened Sequences
  import opened Text

  datatype Case = Case(caseId: string, kexGroup: string, certSigAlg: string, iterations: string, warmups: string)

  /** The arguments that reach the key or the overlay; durations already in whole milliseconds. */
  datatype Args = Args(
    universalKem: bool, universalCa: bool, caBundleKey: string, mlkemBackend: string,
    cmdMs: int, handshakeMs: int, ioMs: int, retries: int, retryDelayMs: int,
    bleFast: bool, bleDelay: int, writeChunk: int, writePause: int, readPause: int,
    reboot: bool, verbose: bool, initialDelayMs: int, keepaliveSec: int)

  /** Iterations and warm-ups forced on the firmware when a case is split into sessions. */
  datatype Forced = Unforced | Forced(limit: int)

  function IterText(c: Case, f: Forced): string { if f.Forced? then Decimal(f.limit) else c.iterations }

  function WarmupText(c: Case, f: Forced): string { if f.Forced? then "0" else c.warmups }

  const SUPPORTED_GROUPS := {
    "MLKEM512", "MLKEM768", "MLKEM1024", "SecP256r1MLKEM768", "X25519MLKEM768", "SecP384r1MLKEM1024",
    "ECDHE-P-256", "ECDHE-P-384", "ECDHE-P-521"}

  const MLKEM_GROUPS := {
    "MLKEM512", "MLKEM768", "MLKEM1024", "SecP256r1MLKEM768", "X25519MLKEM768", "SecP384r1MLKEM1024"}

  // ----- the text -----

  function Flag(on: bool): string { if on then "y" else "n" }

  const GROUP := "CONFIG_APP_BENCH_TLS_GROUP_"

  function GroupSymbol(c: Case, a: Args): string {
    GROUP + if a.universalKem then "UNIVERSAL" else GroupSuffix(c.kexGroup)
  }

  function GroupSuffix(kexGroup: string): string {
    if kexGroup == "SecP256r1MLKEM768" then "SECP256R1_MLKEM768"
    else if kexGroup == "X25519MLKEM768" then "X25519_MLKEM768"
    else if kexGroup == "SecP384r1MLKEM1024" then "SECP384R1_MLKEM1024"
    else if kexGroup == "ECDHE-P-256" then "ECDHE_P256"
    else if kexGroup == "ECDHE-P-384" then "ECDHE_P384"
    else if kexGroup == "ECDHE-P-521" then "ECDHE_P521"
    else kexGroup
  }

  const BACKEND := "CONFIG_APP_BENCH_MLKEM_BACKEND_"
  const PQM4 := BACKEND + "PQM4_CLEAN"
  const WOLFSSL := BACKEND + "WOLFSSL"

  function BackendSymbol(c: Case, a: Args): string {
    if (a.universalKem || c.kexGroup in MLKEM_GROUPS) && a.mlkemBackend == "pqm4-clean" then PQM4 else WOLFSSL
  }

  /** An assignment to a configuration symbol, one a line. */
  datatype Setting = Setting(symbol: string, value: string)

  const LINE_OF: Setting -> string := (s: Setting) => s.symbol + "=" + s.value

  function CountSettings(c: Case, a: Args, f: Forced): seq<Setting> {
    [Setting("CONFIG_APP_BENCH_ITERATIONS", IterText(c, f)),
     Setting("CONFIG_APP_BENCH_WARMUP_ITERATIONS", WarmupText(c, f)),
     Setting("CONFIG_APP_BENCH_INITIAL_DELAY_MS", Decimal(a.initialDelayMs))]
  }

  function TimeoutSettings(a: Args): seq<Setting> {
    [Setting("CONFIG_APP_MQTT_CMD_TIMEOUT_MS", Decimal(a.cmdMs)),
     Setting("CONFIG_APP_TLS_HANDSHAKE_TIMEOUT_MS", Decimal(a.handshakeMs)),
     Setting("CONFIG_APP_TLS_IO_TIMEOUT_MS", Decimal(a.ioMs)),
     Setting("CONFIG_APP_MQTT_KEEPALIVE_SEC", Decimal(a.keepaliveSec))]
  }

  function RetrySettings(a: Args): seq<Setting> {
    [Setting("CONFIG_APP_BENCH_CONNECT_RETRIES", Decimal(a.retries)),
     Setting("CONFIG_APP_BENCH_CONNECT_RETRY_DELAY_MS", Decimal(a.retryDelayMs)),
     Setting("CONFIG_APP_BENCH_REBOOT_AFTER_ATTEMPT", Flag(a.reboot))]
  }

  function LinkSettings(a: Args): seq<Setting> {
    [Setting("CONFIG_APP_BLE_IPSP_FAST_LINK", Flag(a.bleFast)),
     Setting("CONFIG_APP_BLE_IPSP_FAST_LINK_DELAY_MS", Decimal(a.bleDelay)),
     Setting("CONFIG_APP_BLE_IPSP_WRITE_CHUNK", Decimal(a.writeChunk)),
     Setting("CONFIG_APP_BLE_IPSP_WRITE_PAUSE_MS", Decimal(a.writePause)),
     Setting("CONFIG_APP_BLE_IPSP_READ_PAUSE_MS", Decimal(a.readPause))]
  }

  function CryptoSettings(c: Case, a: Args): seq<Setting> {
    [Setting(GroupSymbol(c, a), "y"), Setting(BackendSymbol(c, a), "y")]
  }

  function FastSettings(a: Args): seq<Setting> {
    if a.bleFast then [Setting("CONFIG_BT_USER_PHY_UPDATE", "y"), Setting("CONFIG_BT_USER_DATA_LEN_UPDATE", "y")] else []
  }

  function DebugSettings(a: Args): seq<Setting> {
    [Setting("CONFIG_APP_BENCH_VERBOSE_LOGS", Flag(a.verbose)), Setting("CONFIG_APP_BENCH_WOLFSSL_DEBUG", Flag(a.verbose))]
  }

  function AllSettings(c: Case, a: Args, f: Forced): seq<Setting> {
    CountSettings(c, a, f) + TimeoutSettings(a) + RetrySettings(a) + LinkSettings(a) + CryptoSettings(c, a)
      + FastSettings(a) + DebugSettings(a)
  }

  function OverlayText(c: Case, a: Args, f: Forced): string {
    Join(Map(LINE_OF, AllSettings(c, a, f)) + [""], "\n")
  }

  // ----- the reader -----

  /** A line up to its first equals sign, and after it. */
  const READ_LINE: string -> seq<Setting> := (line: string) =>
    match Find("=", line)
    case None => []
    case Some(i) => if i < |line| then [Setting(line[..i], line[i + 1..])] else []

  function Settings(text: string): seq<Setting> { Gather(READ_LINE, Split(text, '\n')) }

  /** The last assignment to a symbol counts. */
  function ValueIn(settings: seq<Setting>, symbol: string): Option<string> {
    if settings == [] then None
    else
      var last := settings[|settings| - 1];
      if last.symbol == symbol then Some(last.value) else ValueIn(settings[..|settings| - 1], symbol)
  }

  function ValueOf(text: string, symbol: string): Option<string> { ValueIn(Settings(text), symbol) }

  // ----- reading lines back -----

  predicate NameChars(s: string) { forall k :: 0 <= k < |s| ==> 'A' <= s[k] <= 'Z' || s[k] == '_' || '0' <= s[k] <= '9' }

  /** A symbol of capitals, digits and underscores, and a value of one line. */
  predicate Proper(s: Setting) { NameChars(s.symbol) && OneLine(s.value) }

  lemma ReadsLine(s: Setting)
    requires Proper(s)
    ensures READ_LINE(LINE_OF(s)) == [s] && OneLine(LINE_OF(s))
  {
    var line, n := LINE_OF(s), |s.symbol|;
    assert line[n..n + 1] == "=" && OccursAt("=", line, n);
    forall j | 0 <= j < n ensures !OccursAt("=", line, j) {
      assert line[j..j + 1][0] == line[j] == s.symbol[j];
    }
    assert line[..n] == s.symbol && line[n + 1..] == s.value;
  }

  lemma {:induction false} ReadsLines(settings: seq<Setting>)
    requires forall k :: 0 <= k < |settings| ==> Proper(settings[k])
    ensures Gather(READ_LINE, Map(LINE_OF, settings)) == settings
    ensures forall l <- Map(LINE_OF, settings) :: OneLine(l)
  {
    if settings == [] {
    } else {
      var lines := Map(LINE_OF, settings);
      ReadsLine(settings[0]);
      ReadsLines(settings[1..]);
      assert lines == [lines[0]] + Map(LINE_OF, settings[1..]);
    }
  }

  lemma SettingsReadBack(settings: seq<Setting>)
    requires forall k :: 0 <= k < |settings| ==> Proper(settings[k])
    ensures Settings(Join(Map(LINE_OF, settings) + [""], "\n")) == settings
  {
    var lines := Map(LINE_OF, settings);
    ReadsLines(settings);
    SplitJoin(lines + [""], '\n');
    GatherAppend(READ_LINE, lines, [""]);
    assert Find("=", "") == None;
    assert Gather(READ_LINE, [""]) == READ_LINE("") + Gather(READ_LINE, [""][1..]) == [];
  }

  // ----- no symbol is set twice -----

  /** Where a symbol stands in an overlay, told by its length and three of its characters. */
  function Rank(s: string): nat {
    if |s| < 18 then 0
    else if s[11] == 'B' && s[12] == 'E' && s[17] == 'T' then 15
    else if s[11] == 'B' && s[12] == 'E' && s[17] == 'M' then 16
    else if |s| == 27 then 0
    else if |s| == 34 then (if s[12] == 'E' then 1 else 13)
    else if |s| == 33 then (if s[12] == 'E' then 2 else 14)
    else if |s| == 30 then (if s[11] == 'M' then 3 else if s[11] == 'S' then 18 else 20)
    else if |s| == 35 then 4
    else if |s| == 28 then 5
    else if |s| == 29 then (if s[11] == 'M' then 6 else if s[12] == 'L' then 10 else 19)
    else if |s| == 32 then 7
    else if |s| == 39 then 8
    else if |s| == 37 then 9
    else if |s| == 38 then 11
    else if |s| == 31 then 12
    else 17
  }

  /** Proper settings of ranks from `low` below `high`, each higher than the one before. */
  ghost predicate Ranked(settings: seq<Setting>, low: nat, high: nat) {
    && (forall k :: 0 <= k < |settings| ==> Proper(settings[k]) && low <= Rank(settings[k].symbol) < high)
    && forall j, k :: 0 <= j < k < |settings| ==> Rank(settings[j].symbol) < Rank(settings[k].symbol)
  }

  lemma RankedAppend(xs: seq<Setting>, ys: seq<Setting>, low: nat, middle: nat, high: nat)
    requires low <= middle <= high && Ranked(xs, low, middle) && Ranked(ys, middle, high)
    ensures Ranked(xs + ys, low, high)
  {}

  lemma DecimalIsOneLine(n: int)
    ensures OneLine(Decimal(n))
  {
    DigitsShape(if n < 0 then -n else n);
  }

  lemma FlagIsOneLine(on: bool)
    ensures OneLine(Flag(on)) && OneLine("y")
  {}

  predicate IsSymbol(s: string, rank: nat) { NameChars(s) && Rank(s) == rank }

  lemma RankedBlock(settings: seq<Setting>, low: nat)
    requires forall k :: 0 <= k < |settings| ==> IsSymbol(settings[k].symbol, low + k) && OneLine(settings[k].value)
    ensures Ranked(settings, low, low + |settings|)
  {}

  lemma IterationsSymbol()
    ensures IsSymbol("CONFIG_APP_BENCH_ITERATIONS", 0)
  {}

  lemma WarmupsSymbol()
    ensures IsSymbol("CONFIG_APP_BENCH_WARMUP_ITERATIONS", 1)
  {}

  lemma InitialDelaySymbol()
    ensures IsSymbol("CONFIG_APP_BENCH_INITIAL_DELAY_MS", 2)
  {}

  lemma CommandSymbol()
    ensures IsSymbol("CONFIG_APP_MQTT_CMD_TIMEOUT_MS", 3)
  {}

  lemma HandshakeSymbol()
    ensures IsSymbol("CONFIG_APP_TLS_HANDSHAKE_TIMEOUT_MS", 4)
  {}

  lemma IoSymbol()
    ensures IsSymbol("CONFIG_APP_TLS_IO_TIMEOUT_MS", 5)
  {}

  lemma KeepaliveSymbol()
    ensures IsSymbol("CONFIG_APP_MQTT_KEEPALIVE_SEC", 6)
  {}

  lemma RetriesSymbol()
    ensures IsSymbol("CONFIG_APP_BENCH_CONNECT_RETRIES", 7)
  {}

  lemma RetryDelaySymbol()
    ensures IsSymbol("CONFIG_APP_BENCH_CONNECT_RETRY_DELAY_MS", 8)
  {}

  lemma RebootSymbol()
    ensures IsSymbol("CONFIG_APP_BENCH_REBOOT_AFTER_ATTEMPT", 9)
  {}

  lemma FastLinkSymbol()
    ensures IsSymbol("CONFIG_APP_BLE_IPSP_FAST_LINK", 10)
  {}

  lemma FastLinkDelaySymbol()
    ensures IsSymbol("CONFIG_APP_BLE_IPSP_FAST_LINK_DELAY_MS", 11)
  {}

  lemma WriteChunkSymbol()
    ensures IsSymbol("CONFIG_APP_BLE_IPSP_WRITE_CHUNK", 12)
  {}

  lemma WritePauseSymbol()
    ensures IsSymbol("CONFIG_APP_BLE_IPSP_WRITE_PAUSE_MS", 13)
  {}

  lemma ReadPauseSymbol()
    ensures IsSymbol("CONFIG_APP_BLE_IPSP_READ_PAUSE_MS", 14)
  {}

  lemma PhySymbol()
    ensures IsSymbol("CONFIG_BT_USER_PHY_UPDATE", 17)
  {}

  lemma DataLengthSymbol()
    ensures IsSymbol("CONFIG_BT_USER_DATA_LEN_UPDATE", 18)
  {}

  lemma VerboseSymbol()
    ensures IsSymbol("CONFIG_APP_BENCH_VERBOSE_LOGS", 19)
  {}

  lemma DebugSymbol()
    ensures IsSymbol("CONFIG_APP_BENCH_WOLFSSL_DEBUG", 20)
  {}

  lemma BackendSymbolRanks(suffix: string)
    requires NameChars(suffix)
    ensures IsSymbol(BACKEND + suffix, 16)
  {
    assert NameChars(BACKEND) && BACKEND[11] == 'B' && BACKEND[12] == 'E' && BACKEND[17] == 'M';
    var symbol := BACKEND + suffix;
    assert symbol[11] == BACKEND[11] && symbol[12] == BACKEND[12] && symbol[17] == BACKEND[17];
  }

  lemma BackendSuffixes()
    ensures NameChars("PQM4_CLEAN") && NameChars("WOLFSSL") && |"PQM4_CLEAN"| != |"WOLFSSL"|
  {}

  lemma BackendSymbols()
    ensures IsSymbol(PQM4, 16) && IsSymbol(WOLFSSL, 16) && PQM4 != WOLFSSL
  {
    BackendSuffixes();
    BackendSymbolRanks("PQM4_CLEAN");
    BackendSymbolRanks("WOLFSSL");
  }

  lemma GroupSymbolRanks(suffix: string)
    requires NameChars(suffix)
    ensures IsSymbol(GROUP + suffix, 15)
  {
    assert NameChars(GROUP) && GROUP[11] == 'B' && GROUP[12] == 'E' && GROUP[17] == 'T';
    var symbol := GROUP + suffix;
    assert symbol[11] == GROUP[11] && symbol[12] == GROUP[12] && symbol[17] == GROUP[17];
  }

  lemma HybridSuffixes()
    ensures NameChars("SECP256R1_MLKEM768") && NameChars("X25519_MLKEM768") && NameChars("SECP384R1_MLKEM1024")
  {}

  lemma ClassicSuffixes()
    ensures NameChars("ECDHE_P256") && NameChars("ECDHE_P384") && NameChars("ECDHE_P521") && NameChars("UNIVERSAL")
  {}

  lemma PlainSuffixes()
    ensures NameChars("MLKEM512") && NameChars("MLKEM768") && NameChars("MLKEM1024")
  {}

  lemma CryptoRanked(c: Case, a: Args)
    requires c.kexGroup in SUPPORTED_GROUPS
    ensures Ranked(CryptoSettings(c, a), 15, 17)
  {
    HybridSuffixes();
    ClassicSuffixes();
    PlainSuffixes();
    GroupSymbolRanks(if a.universalKem then "UNIVERSAL" else GroupSuffix(c.kexGroup));
    BackendSymbols();
    FlagIsOneLine(true);
    RankedBlock(CryptoSettings(c, a), 15);
  }

  lemma CountsRanked(c: Case, a: Args, f: Forced)
    requires OneLine(IterText(c, f)) && OneLine(WarmupText(c, f))
    ensures Ranked(CountSettings(c, a, f), 0, 3)
  {
    IterationsSymbol();
    WarmupsSymbol();
    InitialDelaySymbol();
    DecimalIsOneLine(a.initialDelayMs);
    RankedBlock(CountSettings(c, a, f), 0);
  }

  lemma TimeoutsRanked(a: Args)
    ensures Ranked(TimeoutSettings(a), 3, 7)
  {
    CommandSymbol();
    HandshakeSymbol();
    IoSymbol();
    KeepaliveSymbol();
    forall n: int ensures OneLine(Decimal(n)) { DecimalIsOneLine(n); }
    RankedBlock(TimeoutSettings(a), 3);
  }

  lemma RetriesRanked(a: Args)
    ensures Ranked(RetrySettings(a), 7, 10)
  {
    RetriesSymbol();
    RetryDelaySymbol();
    RebootSymbol();
    forall n: int ensures OneLine(Decimal(n)) { DecimalIsOneLine(n); }
    FlagIsOneLine(a.reboot);
    RankedBlock(RetrySettings(a), 7);
  }

  lemma LinkRanked(a: Args)
    ensures Ranked(LinkSettings(a), 10, 15)
  {
    FastLinkSymbol();
    FastLinkDelaySymbol();
    WriteChunkSymbol();
    WritePauseSymbol();
    ReadPauseSymbol();
    forall n: int ensures OneLine(Decimal(n)) { DecimalIsOneLine(n); }
    FlagIsOneLine(a.bleFast);
    RankedBlock(LinkSettings(a), 10);
  }

  lemma FastRanked(a: Args)
    ensures Ranked(FastSettings(a), 17, 19)
  {
    PhySymbol();
    DataLengthSymbol();
    FlagIsOneLine(true);
    RankedBlock(FastSettings(a), 17);
  }

  lemma DebugRanked(a: Args)
    ensures Ranked(DebugSettings(a), 19, 21)
  {
    VerboseSymbol();
    DebugSymbol();
    FlagIsOneLine(a.verbose);
    RankedBlock(DebugSettings(a), 19);
  }

  function BeforeFast(c: Case, a: Args, f: Forced): seq<Setting> {
    CountSettings(c, a, f) + TimeoutSettings(a) + RetrySettings(a) + LinkSettings(a) + CryptoSettings(c, a)
  }

  lemma BeforeFastRanked(c: Case, a: Args, f: Forced)
    requires c.kexGroup in SUPPORTED_GROUPS && OneLine(IterText(c, f)) && OneLine(WarmupText(c, f))
    ensures Ranked(BeforeFast(c, a, f), 0, 17)
  {
    var counts, timeouts, retries, link := CountSettings(c, a, f), TimeoutSettings(a), RetrySettings(a), LinkSettings(a);
    CountsRanked(c, a, f);
    TimeoutsRanked(a);
    RankedAppend(counts, timeouts, 0, 3, 7);
    RetriesRanked(a);
    RankedAppend(counts + timeouts, retries, 0, 7, 10);
    LinkRanked(a);
    RankedAppend(counts + timeouts + retries, link, 0, 10, 15);
    CryptoRanked(c, a);
    RankedAppend(counts + timeouts + retries + link, CryptoSettings(c, a), 0, 15, 17);
  }

  lemma AllRanked(c: Case, a: Args, f: Forced)
    requires c.kexGroup in SUPPORTED_GROUPS && OneLine(IterText(c, f)) && OneLine(WarmupText(c, f))
    ensures Ranked(AllSettings(c, a, f), 0, 21)
  {
    BeforeFastRanked(c, a, f);
    FastRanked(a);
    RankedAppend(BeforeFast(c, a, f), FastSettings(a), 0, 17, 19);
    DebugRanked(a);
    RankedAppend(BeforeFast(c, a, f) + FastSettings(a), DebugSettings(a), 0, 19, 21);
  }

  lemma {:induction false} Found(settings: seq<Setting>, k: nat)
    requires Ranked(settings, 0, 21) && k < |settings|
    ensures ValueIn(settings, settings[k].symbol) == Some(settings[k].value)
  {
    if k == |settings| - 1 {
    } else {
      var front := settings[..|settings| - 1];
      assert Ranked(front, 0, 21);
      Found(front, k);
    }
  }

  lemma {:induction false} Absent(settings: seq<Setting>, symbol: string)
    requires forall k :: 0 <= k < |settings| ==> settings[k].symbol != symbol
    ensures ValueIn(settings, symbol) == None
  {
    if settings == [] {
    } else {
      Absent(settings[..|settings| - 1], symbol);
    }
  }

  /** Every setting of `part` has its value in `settings`. */
  predicate HasValues(settings: seq<Setting>, part: seq<Setting>) {
    forall k :: 0 <= k < |part| ==> ValueIn(settings, part[k].symbol) == Some(part[k].value)
  }

  lemma PartHolds(before: seq<Setting>, part: seq<Setting>, after: seq<Setting>)
    requires Ranked(before + part + after, 0, 21)
    ensures HasValues(before + part + after, part)
  {
    var all := before + part + after;
    forall k | 0 <= k < |part| ensures ValueIn(all, part[k].symbol) == Some(part[k].value) {
      Found(all, |before| + k);
    }
  }

  // ----- what an overlay says -----

  predicate CountsRead(text: string, c: Case, a: Args, f: Forced) {
    && ValueOf(text, "CONFIG_APP_BENCH_ITERATIONS") == Some(if f.Forced? then Decimal(f.limit) else c.iterations)
    && ValueOf(text, "CONFIG_APP_BENCH_WARMUP_ITERATIONS") == Some(if f.Forced? then "0" else c.warmups)
    && ValueOf(text, "CONFIG_APP_BENCH_INITIAL_DELAY_MS") == Some(Decimal(a.initialDelayMs))
  }

  predicate TimeoutsRead(text: string, a: Args) {
    && ValueOf(text, "CONFIG_APP_MQTT_CMD_TIMEOUT_MS") == Some(Decimal(a.cmdMs))
    && ValueOf(text, "CONFIG_APP_TLS_HANDSHAKE_TIMEOUT_MS") == Some(Decimal(a.handshakeMs))
    && ValueOf(text, "CONFIG_APP_TLS_IO_TIMEOUT_MS") == Some(Decimal(a.ioMs))
    && ValueOf(text, "CONFIG_APP_MQTT_KEEPALIVE_SEC") == Some(Decimal(a.keepaliveSec))
  }

  predicate RetriesRead(text: string, a: Args) {
    && ValueOf(text, "CONFIG_APP_BENCH_CONNECT_RETRIES") == Some(Decimal(a.retries))
    && ValueOf(text, "CONFIG_APP_BENCH_CONNECT_RETRY_DELAY_MS") == Some(Decimal(a.retryDelayMs))
    && ValueOf(text, "CONFIG_APP_BENCH_REBOOT_AFTER_ATTEMPT") == Some(if a.reboot then "y" else "n")
  }

  predicate LinkRead(text: string, a: Args) {
    && ValueOf(text, "CONFIG_APP_BLE_IPSP_FAST_LINK") == Some(if a.bleFast then "y" else "n")
    && ValueOf(text, "CONFIG_APP_BLE_IPSP_FAST_LINK_DELAY_MS") == Some(Decimal(a.bleDelay))
    && ValueOf(text, "CONFIG_APP_BLE_IPSP_WRITE_CHUNK") == Some(Decimal(a.writeChunk))
    && ValueOf(text, "CONFIG_APP_BLE_IPSP_WRITE_PAUSE_MS") == Some(Decimal(a.writePause))
    && ValueOf(text, "CONFIG_APP_BLE_IPSP_READ_PAUSE_MS") == Some(Decimal(a.readPause))
  }

  predicate FastRead(text: string, a: Args) {
    && ValueOf(text, "CONFIG_BT_USER_PHY_UPDATE") == (if a.bleFast then Some("y") else None)
    && ValueOf(text, "CONFIG_BT_USER_DATA_LEN_UPDATE") == (if a.bleFast then Some("y") else None)
  }

  predicate DebugRead(text: string, a: Args) {
    && ValueOf(text, "CONFIG_APP_BENCH_VERBOSE_LOGS") == Some(if a.verbose then "y" else "n")
    && ValueOf(text, "CONFIG_APP_BENCH_WOLFSSL_DEBUG") == Some(if a.verbose then "y" else "n")
  }

  /** pqm4 is chosen if asked for and the firmware can meet an ML-KEM group. */
  predicate BackendRead(text: string, c: Case, a: Args) {
    var pqm4 := a.mlkemBackend == "pqm4-clean" && (a.universalKem || Find("MLKEM", c.kexGroup).Some?);
    && ValueOf(text, BACKEND + "PQM4_CLEAN") == (if pqm4 then Some("y") else None)
    && ValueOf(text, BACKEND + "WOLFSSL") == (if pqm4 then None else Some("y"))
  }

  function Capital(ch: char): char { if 'a' <= ch <= 'z' then 'A' + (ch as int - 'a' as int) as char else ch }

  /** A name in capitals, without hyphens and underscores. */
  function Letters(name: string): string {
    if name == "" then ""
    else (if name[0] == '-' || name[0] == '_' then "" else [Capital(name[0])]) + Letters(name[1..])
  }

  /** Exactly one TLS group is on, and its symbol spells the case's group, or UNIVERSAL. */
  predicate GroupRead(text: string, c: Case, a: Args) {
    && (exists k :: 0 <= k < |Settings(text)| && GROUP <= Settings(text)[k].symbol)
    && forall k :: 0 <= k < |Settings(text)| && GROUP <= Settings(text)[k].symbol ==>
         && Settings(text)[k].value == "y"
         && Letters(Settings(text)[k].symbol[|GROUP|..]) == if a.universalKem then "UNIVERSAL" else Letters(c.kexGroup)
  }

  lemma {:induction false} LettersAppend(x: string, y: string)
    ensures Letters(x + y) == Letters(x) + Letters(y)
  {
    if x == "" {
      assert x + y == y;
    } else {
      assert (x + y)[1..] == x[1..] + y;
      LettersAppend(x[1..], y);
    }
  }

  lemma LettersAround(x: string, separator: string, y: string)
    requires Letters(separator) == ""
    ensures Letters(x + separator + y) == Letters(x) + Letters(y)
  {
    LettersAppend(x + separator, y);
    LettersAppend(x, separator);
  }

  lemma SeparatorsVanish()
    ensures Letters("-") == "" && Letters("_") == ""
  {}

  lemma LettersBetween(x: string, y: string)
    ensures Letters(x + "-" + y) == Letters(x) + Letters(y) == Letters(x + "_" + y)
  {
    SeparatorsVanish();
    LettersAround(x, "-", y);
    LettersAround(x, "_", y);
  }

  /** Neither holds a separator, and they differ in case at most. */
  predicate SameCapitals(x: string, y: string) {
    |x| == |y| &&
    forall k :: 0 <= k < |x| ==>
      Capital(x[k]) == Capital(y[k]) && x[k] != '-' && x[k] != '_' && y[k] != '-' && y[k] != '_'
  }

  lemma {:induction false} LettersSame(x: string, y: string)
    requires SameCapitals(x, y)
    ensures Letters(x) == Letters(y)
  {
    if x == "" {
    } else {
      LettersSame(x[1..], y[1..]);
    }
  }

  lemma UniversalLetters()
    ensures Letters("UNIVERSAL") == "UNIVERSAL"
  {
    PlainLetters("UNIVERSAL");
  }

  lemma {:induction false} PlainLetters(x: string)
    requires forall k :: 0 <= k < |x| ==> 'A' <= x[k] <= 'Z'
    ensures Letters(x) == x
  {
    if x == "" {
    } else {
      PlainLetters(x[1..]);
      assert x == [x[0]] + x[1..];
    }
  }

  /** A hybrid's symbol sets its two halves apart. */
  lemma HybridLetters(upper: string, curve: string, kem: string)
    requires SameCapitals(upper, curve)
    ensures Letters(upper + "_" + kem) == Letters(curve + kem)
  {
    LettersBetween(upper, kem);
    LettersAppend(curve, kem);
    LettersSame(upper, curve);
  }

  lemma SpellSecP256()
    ensures Letters("SECP256R1_MLKEM768") == Letters("SecP256r1MLKEM768")
  {
    assert "SECP256R1_MLKEM768" == "SECP256R1" + "_" + "MLKEM768";
    assert "SecP256r1MLKEM768" == "SecP256r1" + "MLKEM768";
    HybridLetters("SECP256R1", "SecP256r1", "MLKEM768");
  }

  lemma SpellX25519()
    ensures Letters("X25519_MLKEM768") == Letters("X25519MLKEM768")
  {
    assert "X25519_MLKEM768" == "X25519" + "_" + "MLKEM768";
    assert "X25519MLKEM768" == "X25519" + "MLKEM768";
    HybridLetters("X25519", "X25519", "MLKEM768");
  }

  lemma SpellSecP384()
    ensures Letters("SECP384R1_MLKEM1024") == Letters("SecP384r1MLKEM1024")
  {
    assert "SECP384R1_MLKEM1024" == "SECP384R1" + "_" + "MLKEM1024";
    assert "SecP384r1MLKEM1024" == "SecP384r1" + "MLKEM1024";
    HybridLetters("SECP384R1", "SecP384r1", "MLKEM1024");
  }

  lemma ClassicLetters(digits: string)
    ensures Letters("ECDHE_P" + digits) == Letters("ECDHE-P-" + digits)
  {
    assert "ECDHE_P" + digits == "ECDHE" + "_" + ("P" + digits) && "ECDHE-P-" + digits == "ECDHE" + "-" + ("P" + "-" + digits);
    LettersBetween("ECDHE", "P" + digits);
    LettersBetween("ECDHE", "P" + "-" + digits);
    LettersBetween("P", digits);
    LettersAppend("P", digits);
  }

  lemma SpellP256()
    ensures Letters("ECDHE_P256") == Letters("ECDHE-P-256")
  {
    assert "ECDHE_P256" == "ECDHE_P" + "256" && "ECDHE-P-256" == "ECDHE-P-" + "256";
    ClassicLetters("256");
  }

  lemma SpellP384()
    ensures Letters("ECDHE_P384") == Letters("ECDHE-P-384")
  {
    assert "ECDHE_P384" == "ECDHE_P" + "384" && "ECDHE-P-384" == "ECDHE-P-" + "384";
    ClassicLetters("384");
  }

  lemma SpellP521()
    ensures Letters("ECDHE_P521") == Letters("ECDHE-P-521")
  {
    assert "ECDHE_P521" == "ECDHE_P" + "521" && "ECDHE-P-521" == "ECDHE-P-" + "521";
    ClassicLetters("521");
  }

  /** The suffix of a group's symbol spells the group's name. */
  lemma SuffixSpells(g: string)
    ensures Letters(GroupSuffix(g)) == Letters(g)
  {
    if g == "SecP256r1MLKEM768" {
      SpellSecP256();
    } else if g == "X25519MLKEM768" {
      SpellX25519();
    } else if g == "SecP384r1MLKEM1024" {
      SpellSecP384();
    } else if g == "ECDHE-P-256" {
      SpellP256();
    } else if g == "ECDHE-P-384" {
      SpellP384();
    } else if g == "ECDHE-P-521" {
      SpellP521();
    }
  }

  lemma NoHead(sub: string, s: string)
    requires sub != "" && sub[0] !in s
    ensures Find(sub, s) == None
  {
    forall i ensures !OccursAt(sub, s, i) {
      if 0 <= i <= |s| - |sub| {
        assert s[i..i + |sub|][0] == s[i] && s[i] in s;
      }
    }
  }

  lemma HasMlkem(x: string, y: string)
    ensures Find("MLKEM", x + "MLKEM" + y).Some?
  {
    var g := x + "MLKEM" + y;
    assert g[|x|..|x| + 5] == "MLKEM";
    assert OccursAt("MLKEM", g, |x|);
  }

  lemma PlainNamed(y: string)
    ensures Find("MLKEM", "MLKEM" + y).Some?
  {
    HasMlkem("", y);
    assert "" + "MLKEM" + y == "MLKEM" + y;
  }

  lemma PlainGroupsNamed()
    ensures Find("MLKEM", "MLKEM512").Some? && Find("MLKEM", "MLKEM768").Some? && Find("MLKEM", "MLKEM1024").Some?
  {
    PlainNamed("512");
    PlainNamed("768");
    PlainNamed("1024");
    assert "MLKEM512" == "MLKEM" + "512" && "MLKEM768" == "MLKEM" + "768" && "MLKEM1024" == "MLKEM" + "1024";
  }

  lemma SecP256Named()
    ensures Find("MLKEM", "SecP256r1MLKEM768").Some?
  {
    HasMlkem("SecP256r1", "768");
    assert "SecP256r1MLKEM768" == "SecP256r1" + "MLKEM" + "768";
  }

  lemma X25519Named()
    ensures Find("MLKEM", "X25519MLKEM768").Some?
  {
    HasMlkem("X25519", "768");
    assert "X25519MLKEM768" == "X25519" + "MLKEM" + "768";
  }

  lemma SecP384Named()
    ensures Find("MLKEM", "SecP384r1MLKEM1024").Some?
  {
    HasMlkem("SecP384r1", "1024");
    assert "SecP384r1MLKEM1024" == "SecP384r1" + "MLKEM" + "1024";
  }

  lemma ClassicGroupsNotNamed()
    ensures Find("MLKEM", "ECDHE-P-256") == None && Find("MLKEM", "ECDHE-P-384") == None && Find("MLKEM", "ECDHE-P-521") == None
  {
    NoHead("MLKEM", "ECDHE-P-256");
    NoHead("MLKEM", "ECDHE-P-384");
    NoHead("MLKEM", "ECDHE-P-521");
  }

  /** Among the supported groups the ML-KEM ones are those whose name says so. */
  lemma MlkemGroupsAreNamed(g: string)
    requires g in SUPPORTED_GROUPS
    ensures g in MLKEM_GROUPS <==> Find("MLKEM", g).Some?
  {
    if g == "SecP256r1MLKEM768" {
      SecP256Named();
    } else if g == "X25519MLKEM768" {
      X25519Named();
    } else if g == "SecP384r1MLKEM1024" {
      SecP384Named();
    } else if g in MLKEM_GROUPS {
      PlainGroupsNamed();
    } else {
      ClassicGroupsNotNamed();
    }
  }

  // ----- every symbol reads back -----

  lemma PartsHold(p: seq<Setting>, q: seq<Setting>, r: seq<Setting>, s: seq<Setting>, t: seq<Setting>,
                  u: seq<Setting>, v: seq<Setting>)
    requires Ranked(p + q + r + s + t + u + v, 0, 21)
    ensures
      var all := p + q + r + s + t + u + v;
      && HasValues(all, p) && HasValues(all, q) && HasValues(all, r) && HasValues(all, s)
      && HasValues(all, t) && HasValues(all, u) && HasValues(all, v)
  {
    var all := p + q + r + s + t + u + v;
    assert all == [] + p + (q + r + s + t + u + v);
    PartHolds([], p, q + r + s + t + u + v);
    assert all == p + q + (r + s + t + u + v);
    PartHolds(p, q, r + s + t + u + v);
    assert all == p + q + r + (s + t + u + v);
    PartHolds(p + q, r, s + t + u + v);
    assert all == p + q + r + s + (t + u + v);
    PartHolds(p + q + r, s, t + u + v);
    assert all == p + q + r + s + t + (u + v);
    PartHolds(p + q + r + s, t, u + v);
    PartHolds(p + q + r + s + t, u, v);
    assert all == p + q + r + s + t + u + v + [];
    PartHolds(p + q + r + s + t + u, v, []);
  }

  lemma CountsHold(text: string, c: Case, a: Args, f: Forced)
    requires HasValues(Settings(text), CountSettings(c, a, f))
    ensures CountsRead(text, c, a, f)
  {
    var part := CountSettings(c, a, f);
    assert part[0].symbol == "CONFIG_APP_BENCH_ITERATIONS" && part[1].symbol == "CONFIG_APP_BENCH_WARMUP_ITERATIONS";
    assert part[2].symbol == "CONFIG_APP_BENCH_INITIAL_DELAY_MS";
  }

  lemma TimeoutsHold(text: string, a: Args)
    requires HasValues(Settings(text), TimeoutSettings(a))
    ensures TimeoutsRead(text, a)
  {
    var part := TimeoutSettings(a);
    assert part[0].symbol == "CONFIG_APP_MQTT_CMD_TIMEOUT_MS" && part[1].symbol == "CONFIG_APP_TLS_HANDSHAKE_TIMEOUT_MS";
    assert part[2].symbol == "CONFIG_APP_TLS_IO_TIMEOUT_MS" && part[3].symbol == "CONFIG_APP_MQTT_KEEPALIVE_SEC";
  }

  lemma RetriesHold(text: string, a: Args)
    requires HasValues(Settings(text), RetrySettings(a))
    ensures RetriesRead(text, a)
  {
    var part := RetrySettings(a);
    assert part[0].symbol == "CONFIG_APP_BENCH_CONNECT_RETRIES" && part[1].symbol == "CONFIG_APP_BENCH_CONNECT_RETRY_DELAY_MS";
    assert part[2].symbol == "CONFIG_APP_BENCH_REBOOT_AFTER_ATTEMPT";
  }

  lemma LinkHolds(text: string, a: Args)
    requires HasValues(Settings(text), LinkSettings(a))
    ensures LinkRead(text, a)
  {
    var part := LinkSettings(a);
    assert part[0].symbol == "CONFIG_APP_BLE_IPSP_FAST_LINK" && part[1].symbol == "CONFIG_APP_BLE_IPSP_FAST_LINK_DELAY_MS";
    assert part[2].symbol == "CONFIG_APP_BLE_IPSP_WRITE_CHUNK" && part[3].symbol == "CONFIG_APP_BLE_IPSP_WRITE_PAUSE_MS";
    assert part[4].symbol == "CONFIG_APP_BLE_IPSP_READ_PAUSE_MS";
  }

  lemma DebugHolds(text: string, a: Args)
    requires HasValues(Settings(text), DebugSettings(a))
    ensures DebugRead(text, a)
  {
    var part := DebugSettings(a);
    assert part[0].symbol == "CONFIG_APP_BENCH_VERBOSE_LOGS" && part[1].symbol == "CONFIG_APP_BENCH_WOLFSSL_DEBUG";
  }

  lemma FastHolds(text: string, a: Args)
    requires a.bleFast && HasValues(Settings(text), FastSettings(a))
    ensures FastRead(text, a)
  {
    var part := FastSettings(a);
    assert part[0].symbol == "CONFIG_BT_USER_PHY_UPDATE" && part[1].symbol == "CONFIG_BT_USER_DATA_LEN_UPDATE";
  }

  /** No symbol of a rank between those of two stretches of settings is set. */
  lemma GapIsAbsent(before: seq<Setting>, after: seq<Setting>, symbol: string, low: nat, high: nat)
    requires Ranked(before, 0, low) && Ranked(after, high, 21) && low <= Rank(symbol) < high
    ensures ValueIn(before + after, symbol) == None
  {
    Absent(before + after, symbol);
  }

  lemma FastAbsent(text: string, a: Args, before: seq<Setting>, after: seq<Setting>)
    requires !a.bleFast && Settings(text) == before + after && Ranked(before, 0, 17) && Ranked(after, 19, 21)
    ensures FastRead(text, a)
  {
    PhySymbol();
    DataLengthSymbol();
    GapIsAbsent(before, after, "CONFIG_BT_USER_PHY_UPDATE", 17, 19);
    GapIsAbsent(before, after, "CONFIG_BT_USER_DATA_LEN_UPDATE", 17, 19);
  }

  /** The two settings of the cryptography stand between the others. */
  ghost predicate CryptoAt(settings: seq<Setting>, group: string, backend: string) {
    && Ranked(settings, 0, 21) && |settings| > 16 && IsSymbol(group, 15) && IsSymbol(backend, 16)
    && settings[15] == Setting(group, "y") && settings[16] == Setting(backend, "y")
  }

  lemma BackendHolds(text: string, c: Case, a: Args)
    requires CryptoAt(Settings(text), GroupSymbol(c, a), BackendSymbol(c, a)) && c.kexGroup in SUPPORTED_GROUPS
    ensures BackendRead(text, c, a)
  {
    var chosen := BackendSymbol(c, a);
    var other := if chosen == PQM4 then WOLFSSL else PQM4;
    MlkemGroupsAreNamed(c.kexGroup);
    BackendSymbols();
    Found(Settings(text), 16);
    Absent(Settings(text), other);
  }

  lemma GroupPrefix(symbol: string)
    requires GROUP <= symbol
    ensures Rank(symbol) == 15
  {
    assert GROUP[11] == 'B' && GROUP[12] == 'E' && GROUP[17] == 'T';
    assert symbol[11] == GROUP[11] && symbol[12] == GROUP[12] && symbol[17] == GROUP[17];
  }

  lemma OnlyGroup(settings: seq<Setting>, group: string, backend: string)
    requires CryptoAt(settings, group, backend)
    ensures forall k :: 0 <= k < |settings| && GROUP <= settings[k].symbol ==> k == 15
  {
    forall k | 0 <= k < |settings| && GROUP <= settings[k].symbol ensures k == 15 {
      GroupPrefix(settings[k].symbol);
    }
  }

  lemma GroupHolds(text: string, c: Case, a: Args)
    requires CryptoAt(Settings(text), GroupSymbol(c, a), BackendSymbol(c, a))
    ensures GroupRead(text, c, a)
  {
    var suffix := if a.universalKem then "UNIVERSAL" else GroupSuffix(c.kexGroup);
    OnlyGroup(Settings(text), GroupSymbol(c, a), BackendSymbol(c, a));
    assert GroupSymbol(c, a) == GROUP + suffix;
    assert (GROUP + suffix)[|GROUP|..] == suffix && GROUP <= GROUP + suffix;
    UniversalLetters();
    SuffixSpells(c.kexGroup);
  }

  /** The overlay read line by line gives every setting its value. */
  predicate ReadsBack(text: string, c: Case, a: Args, f: Forced) {
    && CountsRead(text, c, a, f) && TimeoutsRead(text, a) && RetriesRead(text, a) && LinkRead(text, a)
    && GroupRead(text, c, a) && BackendRead(text, c, a) && FastRead(text, a) && DebugRead(text, a)
  }

  lemma SettingsOfOverlay(c: Case, a: Args, f: Forced)
    requires c.kexGroup in SUPPORTED_GROUPS && OneLine(IterText(c, f)) && OneLine(WarmupText(c, f))
    ensures Settings(OverlayText(c, a, f)) == AllSettings(c, a, f) && Ranked(AllSettings(c, a, f), 0, 21)
  {
    AllRanked(c, a, f);
    SettingsReadBack(AllSettings(c, a, f));
  }

  lemma CryptoStandsThere(c: Case, a: Args, f: Forced)
    requires c.kexGroup in SUPPORTED_GROUPS && Ranked(AllSettings(c, a, f), 0, 21)
    ensures CryptoAt(AllSettings(c, a, f), GroupSymbol(c, a), BackendSymbol(c, a))
  {
    CryptoRanked(c, a);
    var crypto := CryptoSettings(c, a);
    assert AllSettings(c, a, f)[15] == crypto[0] && AllSettings(c, a, f)[16] == crypto[1];
  }

  lemma FastSettingsHold(text: string, c: Case, a: Args, f: Forced)
    requires c.kexGroup in SUPPORTED_GROUPS && OneLine(IterText(c, f)) && OneLine(WarmupText(c, f))
    requires Settings(text) == AllSettings(c, a, f) && HasValues(Settings(text), FastSettings(a))
    ensures FastRead(text, a)
  {
    if a.bleFast {
      FastHolds(text, a);
    } else {
      BeforeFastRanked(c, a, f);
      DebugRanked(a);
      assert AllSettings(c, a, f) == BeforeFast(c, a, f) + DebugSettings(a);
      FastAbsent(text, a, BeforeFast(c, a, f), DebugSettings(a));
    }
  }

  /** Every overlay whose count texts are of one line reads back symbol by symbol. */
  lemma OverlayReadsBack(c: Case, a: Args, f: Forced)
    requires c.kexGroup in SUPPORTED_GROUPS && OneLine(IterText(c, f)) && OneLine(WarmupText(c, f))
    ensures ReadsBack(OverlayText(c, a, f), c, a, f)
  {
    var text := OverlayText(c, a, f);
    SettingsOfOverlay(c, a, f);
    PartsHold(CountSettings(c, a, f), TimeoutSettings(a), RetrySettings(a), LinkSettings(a), CryptoSettings(c, a),
              FastSettings(a), DebugSettings(a));
    CountsHold(text, c, a, f);
    TimeoutsHold(text, a);
    RetriesHold(text, a);
    LinkHolds(text, a);
    CryptoStandsThere(c, a, f);
    GroupHolds(text, c, a);
    BackendHolds(text, c, a);
    FastSettingsHold(text, c, a, f);
    DebugHolds(text, a);
  }

  lemma ReadValueIsOneLine(line: string)
    requires OneLine(line)
    ensures forall k :: 0 <= k < |READ_LINE(line)| ==> OneLine(READ_LINE(line)[k].value)
  {
    forall k | 0 <= k < |READ_LINE(line)| ensures OneLine(READ_LINE(line)[k].value) {
      var i := Find("=", line).value;
      assert READ_LINE(line)[k].value == line[i + 1..];
    }
  }

  lemma {:induction false} ValuesAreOneLine(lines: seq<string>)
    requires forall l <- lines :: OneLine(l)
    ensures forall k :: 0 <= k < |Gather(READ_LINE, lines)| ==> OneLine(Gather(READ_LINE, lines)[k].value)
  {
    if lines == [] {
    } else {
      ValuesAreOneLine(lines[1..]);
      ReadValueIsOneLine(lines[0]);
      assert lines == [lines[0]] + lines[1..];
    }
  }

  lemma {:induction false} FoundIsThere(settings: seq<Setting>, symbol: string)
    ensures ValueIn(settings, symbol).Some? ==>
      exists k :: 0 <= k < |settings| && settings[k].value == ValueIn(settings, symbol).value
  {
    if settings == [] {
    } else {
      var front := settings[..|settings| - 1];
      FoundIsThere(front, symbol);
      if settings[|settings| - 1].symbol != symbol && ValueIn(front, symbol).Some? {
        var k :| 0 <= k < |front| && front[k].value == ValueIn(front, symbol).value;
        assert settings[k] == front[k];
      }
    }
  }

  lemma ValueIsOneLine(text: string, symbol: string)
    ensures ValueOf(text, symbol).Some? ==> OneLine(ValueOf(text, symbol).value)
  {
    ValuesAreOneLine(Split(text, '\n'));
    FoundIsThere(Settings(text), symbol);
  }

  /** An overlay of a supported group reads back if and only if both count texts are of one line;
      those of generated cases and forced counts always are. */
  lemma OverlayReadsBackExactly(c: Case, a: Args, f: Forced)
    requires c.kexGroup in SUPPORTED_GROUPS
    ensures ReadsBack(OverlayText(c, a, f), c, a, f) <==> OneLine(IterText(c, f)) && OneLine(WarmupText(c, f))
  {
    var text := OverlayText(c, a, f);
    if OneLine(IterText(c, f)) && OneLine(WarmupText(c, f)) {
      OverlayReadsBack(c, a, f);
    } else {
      ValueIsOneLine(text, "CONFIG_APP_BENCH_ITERATIONS");
      ValueIsOneLine(text, "CONFIG_APP_BENCH_WARMUP_ITERATIONS");
    }
  }
}
