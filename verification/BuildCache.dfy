/** Firmware profile keys against what a build is made of: equal keys mean the same overlay text
    and the same trust header, so reusing a build equals rebuilding
    (benchmarking/run_benchmarks.py, firmware_profile_key, build_firmware, prepare_case_for_schedule). */
module BuildCache {
  import opened Overlay
  import opened Slugs
  import opened Text

  // ----- the key -----

  function KexPart(c: Case, a: Args): string { if a.universalKem then "universal-kem" else Slug(c.kexGroup) }

  function CertPart(c: Case, a: Args): string { if a.universalCa then a.caBundleKey else "cert_" + Slug(c.certSigAlg) }

  function MlkemPart(a: Args): string { "mlkem_" + Slug(a.mlkemBackend) }

  function FixedParts(a: Args): seq<string> {
    ["cmd_" + Decimal(a.cmdMs), "hs_" + Decimal(a.handshakeMs), "io_" + Decimal(a.ioMs),
     "retry_" + Decimal(a.retries), "delay_" + Decimal(a.retryDelayMs),
     "blefast_" + (if a.bleFast then "1" else "0"), "bledelay_" + Decimal(a.bleDelay),
     "wrchunk_" + Decimal(a.writeChunk), "wrpause_" + Decimal(a.writePause), "rdpause_" + Decimal(a.readPause),
     if a.reboot then "reboot" else "no-reboot", if a.verbose then "verbose" else "quiet"]
  }

  function FullKey(c: Case, a: Args, f: Forced): string {
    Join([KexPart(c, a), CertPart(c, a), MlkemPart(a), "iter_" + IterText(c, f), "warmup_" + WarmupText(c, f)]
         + FixedParts(a), "__")
  }

  const HASH_LENGTH := 12

  function ProfileKey(c: Case, a: Args, f: Forced, hash: string -> string): string {
    Join([KexPart(c, a), CertPart(c, a), MlkemPart(a)], "__") + "__" + hash(FullKey(c, a, f))
  }

  /** A case of the run with the counts forced on its firmware. */
  datatype Profile = Profile(c: Case, f: Forced)

  /** The twelve-digit digest prefixes of a run's full keys do not collide. */
  ghost predicate CollisionFree(hash: string -> string, profiles: set<Profile>, a: Args) {
    && (forall s :: |hash(s)| == HASH_LENGTH)
    && forall p <- profiles, q <- profiles ::
         hash(FullKey(p.c, a, p.f)) == hash(FullKey(q.c, a, q.f)) ==> FullKey(p.c, a, p.f) == FullKey(q.c, a, q.f)
  }

  // ----- what a build is made of -----

  function ArtifactKey(c: Case, a: Args): string {
    if a.universalKem then "cert__" + Slug(c.certSigAlg) else c.caseId
  }

  /** Headers available to a run: the bundle, or the one cached with a case's certificates. */
  datatype Headers = Headers(bundle: string, cached: string -> string)

  function TrustHeader(c: Case, a: Args, h: Headers): string {
    if a.universalCa then h.bundle else h.cached(ArtifactKey(c, a))
  }

  // ----- admissible cases -----

  predicate DigitGroups(s: string) {
    && s != "" && '0' <= s[0] <= '9'
    && (|s| > 1 ==> if s[1] == '_' then DigitGroups(s[2..]) else DigitGroups(s[1..]))
  }

  /** Whitespace `l`, an optionally signed number `m`, whitespace `r`. */
  predicate IntParts(s: string, l: string, m: string, r: string) {
    && s == l + m + r && (forall k :: 0 <= k < |l| ==> IsSpace(l[k])) && (forall k :: 0 <= k < |r| ==> IsSpace(r[k]))
    && (DigitGroups(m) || (m != "" && m[0] in {'+', '-'} && DigitGroups(m[1..])))
  }

  /** Texts int() accepts: surrounding whitespace, a sign, digits with single underscores between. */
  ghost predicate IntText(s: string) { exists l, m, r: string :: IntParts(s, l, m, r) }

  /** A case the generator wrote, of a supported group, whose counts int() has accepted. */
  ghost predicate Admissible(c: Case) {
    && c.kexGroup in SUPPORTED_GROUPS && Slug(c.certSigAlg) != ""
    && c.caseId == GeneratorSlug(c.kexGroup) + "__" + GeneratorSlug(c.certSigAlg)
    && IntText(c.iterations) && IntText(c.warmups)
  }

  lemma {:induction false} DigitGroupsClean(s: string)
    requires DigitGroups(s)
    ensures Clean(s) && s[0] != '_'
  {
    if |s| <= 1 {
    } else {
      DigitGroupsClean(if s[1] == '_' then s[2..] else s[1..]);
      assert s == (if s[1] == '_' then s[..2] + s[2..] else s[..1] + s[1..]);
    }
  }

  /** A row of build_cases. */
  function GeneratedCase(group: string, algorithm: string, iterations: int, warmups: int): Case {
    Case(GeneratorSlug(group) + "__" + GeneratorSlug(algorithm), group, algorithm, Decimal(iterations), Decimal(warmups))
  }

  lemma {:induction false} DigitsAreGroups(s: string)
    requires s != "" && forall k :: 0 <= k < |s| ==> '0' <= s[k] <= '9'
    ensures DigitGroups(s)
  {
    if |s| <= 1 {
    } else {
      DigitsAreGroups(s[1..]);
    }
  }

  lemma DecimalIsIntText(n: int)
    ensures IntText(Decimal(n))
  {
    var d := Digits(if n < 0 then -n else n);
    DigitsShape(if n < 0 then -n else n);
    assert forall k :: 0 <= k < |d| ==> d[k] in d;
    DigitsAreGroups(d);
    var m := Decimal(n);
    assert n < 0 ==> m[1..] == d;
    assert IntParts(m, "", m, "");
  }

  /** Every case the generator writes for a supported group is admissible. */
  lemma GeneratedCaseIsAdmissible(group: string, algorithm: string, iterations: int, warmups: int)
    requires group in SUPPORTED_GROUPS && SimpleName(algorithm) && algorithm != "" && algorithm[0] != '-'
    ensures Admissible(GeneratedCase(group, algorithm, iterations, warmups))
  {
    SimpleSlug(algorithm);
    DecimalIsIntText(iterations);
    DecimalIsIntText(warmups);
  }

  lemma CleanConcat(p: string, q: string)
    requires NoDouble(p) && Clean(q) && q != "" && q[0] != '_'
    ensures Clean(p + q)
  {}

  lemma IntTextClean(s: string)
    requires IntText(s)
    ensures Clean(s) && s != "" && s[0] != '_'
  {
    var l, m, r: string :| IntParts(s, l, m, r);
    if DigitGroups(m) {
      DigitGroupsClean(m);
    } else {
      DigitGroupsClean(m[1..]);
      assert m == m[..1] + m[1..];
    }
    assert Clean(m) && m != "" && m[0] != '_';
  }

  lemma PrefixesClean(text: string)
    requires Clean(text) && text != "" && text[0] != '_'
    ensures Clean("iter_" + text) && Clean("warmup_" + text) && Clean("cert_" + text)
  {
    CleanConcat("iter_", text);
    CleanConcat("warmup_", text);
    CleanConcat("cert_", text);
  }

  lemma DecimalClean(n: int)
    ensures Clean(Decimal(n)) && Decimal(n) != "" && Decimal(n)[0] != '_'
  {
    var d := Digits(if n < 0 then -n else n);
    DigitsShape(if n < 0 then -n else n);
    assert forall k :: 0 <= k < |d| ==> d[k] in d;
  }

  lemma CountsClean(c: Case, f: Forced)
    requires Admissible(c)
    ensures Clean("iter_" + IterText(c, f)) && Clean("warmup_" + WarmupText(c, f))
  {
    IntTextClean(c.iterations);
    IntTextClean(c.warmups);
    if f.Forced? { DecimalClean(f.limit); }
    PrefixesClean(IterText(c, f));
    PrefixesClean(WarmupText(c, f));
  }

  lemma UniversalKemClean()
    ensures Clean("universal-kem")
  {}

  lemma KexAndCertClean(c: Case, a: Args)
    requires Admissible(c)
    ensures Clean(KexPart(c, a)) && (!a.universalCa ==> Clean(CertPart(c, a)))
  {
    UniversalKemClean();
    SlugIsClean(c.kexGroup);
    SlugIsClean(c.certSigAlg);
    PrefixesClean(Slug(c.certSigAlg));
  }

  lemma SimplePlainGroups()
    ensures SimpleName("MLKEM512") && SimpleName("MLKEM768") && SimpleName("MLKEM1024")
  {}

  lemma SimpleSecP()
    ensures SimpleName("SecP256r1MLKEM768")
  {}

  lemma SimpleX()
    ensures SimpleName("X25519MLKEM768")
  {}

  lemma SimpleSecP384()
    ensures SimpleName("SecP384r1MLKEM1024")
  {}

  lemma SimpleClassicGroups()
    ensures SimpleName("ECDHE-P-256") && SimpleName("ECDHE-P-384") && SimpleName("ECDHE-P-521")
  {}

  lemma SimpleGroups(g: string)
    requires g in SUPPORTED_GROUPS
    ensures SimpleName(g) && g != "" && g[0] != '-'
  {
    SimplePlainGroups();
    SimpleSecP();
    SimpleX();
    SimpleSecP384();
    SimpleClassicGroups();
  }

  /** Reads a supported group back from its slug: length and two characters are enough. */
  function GroupOfSlug(slug: string): string {
    if |slug| < 8 then ""
    else if |slug| == 8 then (if slug[5] == '5' then "MLKEM512" else "MLKEM768")
    else if |slug| == 9 then "MLKEM1024"
    else if |slug| == 11 then
      (if slug[8] == '2' then "ECDHE-P-256" else if slug[8] == '3' then "ECDHE-P-384" else "ECDHE-P-521")
    else if |slug| == 14 then "X25519MLKEM768"
    else if |slug| == 17 then "SecP256r1MLKEM768"
    else "SecP384r1MLKEM1024"
  }

  lemma GroupFromMarks(g: string, slug: string)
    requires g in SUPPORTED_GROUPS && |slug| == |g|
    requires forall k :: 0 <= k < |g| ==> slug[k] == SimpleSlugChar(g[k])
    ensures GroupOfSlug(slug) == g
  {
    if |g| == 8 {
      assert slug[5] == SimpleSlugChar(g[5]);
    } else if |g| == 11 {
      assert slug[8] == SimpleSlugChar(g[8]);
    }
  }

  /** The supported groups keep distinct slugs. */
  lemma GroupFromSlug(g: string)
    requires g in SUPPORTED_GROUPS
    ensures GroupOfSlug(Slug(g)) == g
  {
    SimpleGroups(g);
    SimpleSlug(g);
    GroupFromMarks(g, Slug(g));
  }

  lemma JoinTwo(p: string, parts: seq<string>)
    requires parts != []
    ensures Join([p] + parts, "__") == p + "__" + Join(parts, "__")
  {}

  /** The digest at the end of a profile key is the digest of the full key. */
  lemma EqualKeysEqualFullKeys(c: Case, f: Forced, c': Case, f': Forced, a: Args, hash: string -> string)
    requires CollisionFree(hash, {Profile(c, f), Profile(c', f')}, a)
    requires ProfileKey(c, a, f, hash) == ProfileKey(c', a, f', hash)
    ensures FullKey(c, a, f) == FullKey(c', a, f')
  {
    var k := ProfileKey(c, a, f, hash);
    assert hash(FullKey(c, a, f)) == k[|k| - HASH_LENGTH..] == hash(FullKey(c', a, f'));
    assert Profile(c, f) in {Profile(c, f), Profile(c', f')} && Profile(c', f') in {Profile(c, f), Profile(c', f')};
  }

  /** A full key from its parts; `fixed` is the same for all cases of a run. */
  function KeyText(kex: string, cert: string, mlkem: string, iter: string, warmup: string, fixed: string): string {
    kex + "__" + (cert + "__" + (mlkem + "__" + (iter + "__" + (warmup + "__" + fixed))))
  }

  /** The parts can be read back, as long as no part that varies runs into its separator. */
  lemma KeyTextDecodes(kex: string, cert: string, iter: string, warmup: string,
                       kex': string, cert': string, iter': string, warmup': string, mlkem: string, fixed: string)
    requires Clean(kex) && Clean(kex') && Clean(iter) && Clean(iter') && Clean(warmup) && Clean(warmup')
    requires cert == cert' || (Clean(cert) && Clean(cert'))
    requires KeyText(kex, cert, mlkem, iter, warmup, fixed) == KeyText(kex', cert', mlkem, iter', warmup', fixed)
    ensures kex == kex' && cert == cert' && iter == iter' && warmup == warmup'
  {
    var counts, counts' := iter + "__" + (warmup + "__" + fixed), iter' + "__" + (warmup' + "__" + fixed);
    var rest, rest' := mlkem + "__" + counts, mlkem + "__" + counts';
    JoinDecodes(kex, cert + "__" + rest, kex', cert' + "__" + rest');
    if cert == cert' {
      SamePrefix(cert + "__", rest, rest');
    } else {
      JoinDecodes(cert, rest, cert', rest');
    }
    SamePrefix(mlkem + "__", counts, counts');
    JoinDecodes(iter, warmup + "__" + fixed, iter', warmup' + "__" + fixed);
    JoinDecodes(warmup, fixed, warmup', fixed);
  }

  lemma FullKeyNested(c: Case, a: Args, f: Forced)
    ensures FullKey(c, a, f) == KeyText(KexPart(c, a), CertPart(c, a), MlkemPart(a), "iter_" + IterText(c, f),
                                        "warmup_" + WarmupText(c, f), Join(FixedParts(a), "__"))
  {
    JoinParts(KexPart(c, a), CertPart(c, a), MlkemPart(a), "iter_" + IterText(c, f), "warmup_" + WarmupText(c, f), FixedParts(a));
  }

  lemma JoinParts(kex: string, cert: string, mlkem: string, iter: string, warmup: string, fixed: seq<string>)
    requires fixed != []
    ensures Join([kex, cert, mlkem, iter, warmup] + fixed, "__") == KeyText(kex, cert, mlkem, iter, warmup, Join(fixed, "__"))
  {
    JoinTwo(warmup, fixed);
    JoinTwo(iter, [warmup] + fixed);
    JoinTwo(mlkem, [iter] + ([warmup] + fixed));
    JoinTwo(cert, [mlkem] + ([iter] + ([warmup] + fixed)));
    JoinTwo(kex, [cert] + ([mlkem] + ([iter] + ([warmup] + fixed))));
    assert [kex, cert, mlkem, iter, warmup] + fixed == [kex] + ([cert] + ([mlkem] + ([iter] + ([warmup] + fixed))));
  }

  /** A full key determines every part of it that can differ within a run. */
  lemma FullKeyDecodes(c: Case, f: Forced, c': Case, f': Forced, a: Args)
    requires Admissible(c) && Admissible(c') && FullKey(c, a, f) == FullKey(c', a, f')
    ensures KexPart(c, a) == KexPart(c', a) && CertPart(c, a) == CertPart(c', a)
    ensures IterText(c, f) == IterText(c', f') && WarmupText(c, f) == WarmupText(c', f')
  {
    FullKeyNested(c, a, f);
    FullKeyNested(c', a, f');
    KexAndCertClean(c, a);
    KexAndCertClean(c', a);
    CountsClean(c, f);
    CountsClean(c', f');
    KeyTextDecodes(KexPart(c, a), CertPart(c, a), "iter_" + IterText(c, f), "warmup_" + WarmupText(c, f),
                   KexPart(c', a), CertPart(c', a), "iter_" + IterText(c', f'), "warmup_" + WarmupText(c', f'),
                   MlkemPart(a), Join(FixedParts(a), "__"));
    SamePrefix("iter_", IterText(c, f), IterText(c', f'));
    SamePrefix("warmup_", WarmupText(c, f), WarmupText(c', f'));
  }

  lemma {:induction false} JoinCleanDecodes(parts: seq<string>, parts': seq<string>)
    requires |parts| == |parts'| > 0 && (forall p <- parts :: Clean(p)) && forall p <- parts' :: Clean(p)
    requires Join(parts, "__") == Join(parts', "__")
    ensures parts == parts'
  {
    assert parts[0] in parts && parts'[0] in parts';
    if |parts| == 1 {
    } else {
      JoinDecodes(parts[0], Join(parts[1..], "__"), parts'[0], Join(parts'[1..], "__"));
      JoinCleanDecodes(parts[1..], parts'[1..]);
    }
  }

  lemma PrefixedDecimal(prefix: string, n: int)
    requires NoDouble(prefix)
    ensures Clean(prefix + Decimal(n))
  {
    DecimalClean(n);
    CleanConcat(prefix, Decimal(n));
  }

  lemma TimeoutPartsClean(a: Args)
    ensures Clean("cmd_" + Decimal(a.cmdMs)) && Clean("hs_" + Decimal(a.handshakeMs)) && Clean("io_" + Decimal(a.ioMs))
    ensures Clean("retry_" + Decimal(a.retries)) && Clean("delay_" + Decimal(a.retryDelayMs))
  {
    PrefixedDecimal("cmd_", a.cmdMs);
    PrefixedDecimal("hs_", a.handshakeMs);
    PrefixedDecimal("io_", a.ioMs);
    PrefixedDecimal("retry_", a.retries);
    PrefixedDecimal("delay_", a.retryDelayMs);
  }

  lemma LinkPartsClean(a: Args)
    ensures Clean("bledelay_" + Decimal(a.bleDelay)) && Clean("wrchunk_" + Decimal(a.writeChunk))
    ensures Clean("wrpause_" + Decimal(a.writePause)) && Clean("rdpause_" + Decimal(a.readPause))
  {
    PrefixedDecimal("bledelay_", a.bleDelay);
    PrefixedDecimal("wrchunk_", a.writeChunk);
    PrefixedDecimal("wrpause_", a.writePause);
    PrefixedDecimal("rdpause_", a.readPause);
  }

  lemma FastPartClean(a: Args)
    ensures Clean("blefast_" + (if a.bleFast then "1" else "0"))
  {
    CleanConcat("blefast_", if a.bleFast then "1" else "0");
  }

  lemma SwitchPartsClean(a: Args)
    ensures Clean(if a.reboot then "reboot" else "no-reboot") && Clean(if a.verbose then "verbose" else "quiet")
  {}

  lemma FixedPartsClean(a: Args)
    ensures forall p <- FixedParts(a) :: Clean(p)
  {
    TimeoutPartsClean(a);
    LinkPartsClean(a);
    FastPartClean(a);
    SwitchPartsClean(a);
  }

  lemma SameNumber(prefix: string, n: int, m: int)
    requires prefix + Decimal(n) == prefix + Decimal(m)
    ensures n == m
  {
    SamePrefix(prefix, Decimal(n), Decimal(m));
    ReadDecimal(n);
    ReadDecimal(m);
  }

  /** The part of a key that is the same for all cases of a run tells apart any two settings of the
      arguments it is made from. */
  lemma FixedPartsDecode(a: Args, a': Args)
    requires Join(FixedParts(a), "__") == Join(FixedParts(a'), "__")
    ensures a.cmdMs == a'.cmdMs && a.handshakeMs == a'.handshakeMs && a.ioMs == a'.ioMs
    ensures a.retries == a'.retries && a.retryDelayMs == a'.retryDelayMs
    ensures a.bleFast == a'.bleFast && a.bleDelay == a'.bleDelay && a.writeChunk == a'.writeChunk
    ensures a.writePause == a'.writePause && a.readPause == a'.readPause && a.reboot == a'.reboot && a.verbose == a'.verbose
  {
    FixedPartsClean(a);
    FixedPartsClean(a');
    JoinCleanDecodes(FixedParts(a), FixedParts(a'));
    SameTimeouts(a, a');
    SameRetries(a, a');
    SameLink(a, a');
    SameSwitches(a, a');
  }

  lemma SameTimeouts(a: Args, a': Args)
    requires FixedParts(a) == FixedParts(a')
    ensures a.cmdMs == a'.cmdMs && a.handshakeMs == a'.handshakeMs && a.ioMs == a'.ioMs
  {
    var parts, parts' := FixedParts(a), FixedParts(a');
    assert parts[0] == parts'[0] && parts[1] == parts'[1] && parts[2] == parts'[2];
    SameNumber("cmd_", a.cmdMs, a'.cmdMs);
    SameNumber("hs_", a.handshakeMs, a'.handshakeMs);
    SameNumber("io_", a.ioMs, a'.ioMs);
  }

  lemma SameRetries(a: Args, a': Args)
    requires FixedParts(a) == FixedParts(a')
    ensures a.retries == a'.retries && a.retryDelayMs == a'.retryDelayMs && a.bleDelay == a'.bleDelay
  {
    var parts, parts' := FixedParts(a), FixedParts(a');
    assert parts[3] == parts'[3] && parts[4] == parts'[4] && parts[6] == parts'[6];
    SameNumber("retry_", a.retries, a'.retries);
    SameNumber("delay_", a.retryDelayMs, a'.retryDelayMs);
    SameNumber("bledelay_", a.bleDelay, a'.bleDelay);
  }

  lemma SameLink(a: Args, a': Args)
    requires FixedParts(a) == FixedParts(a')
    ensures a.writeChunk == a'.writeChunk && a.writePause == a'.writePause && a.readPause == a'.readPause
  {
    var parts, parts' := FixedParts(a), FixedParts(a');
    assert parts[7] == parts'[7] && parts[8] == parts'[8] && parts[9] == parts'[9];
    SameNumber("wrchunk_", a.writeChunk, a'.writeChunk);
    SameNumber("wrpause_", a.writePause, a'.writePause);
    SameNumber("rdpause_", a.readPause, a'.readPause);
  }

  lemma SameSwitches(a: Args, a': Args)
    requires FixedParts(a) == FixedParts(a')
    ensures a.bleFast == a'.bleFast && a.reboot == a'.reboot && a.verbose == a'.verbose
  {
    var parts, parts' := FixedParts(a), FixedParts(a');
    SwitchTexts(a);
    SwitchTexts(a');
    assert parts[5] == parts'[5] && parts[10] == parts'[10] && parts[11] == parts'[11];
  }

  lemma SwitchTexts(a: Args)
    ensures var fast := "blefast_" + (if a.bleFast then "1" else "0"); |fast| == 9 && fast[8] == if a.bleFast then '1' else '0'
    ensures |if a.reboot then "reboot" else "no-reboot"| == if a.reboot then 6 else 9
    ensures |if a.verbose then "verbose" else "quiet"| == if a.verbose then 7 else 5
  {}

  datatype Image = Image(overlay: string, header: string)

  function ImageOf(c: Case, a: Args, f: Forced, h: Headers): Image {
    Image(OverlayText(c, a, f), TrustHeader(c, a, h))
  }

  lemma SameOverlay(c: Case, f: Forced, c': Case, f': Forced, a: Args)
    requires IterText(c, f) == IterText(c', f') && WarmupText(c, f) == WarmupText(c', f')
    requires a.universalKem || c.kexGroup == c'.kexGroup
    ensures OverlayText(c, a, f) == OverlayText(c', a, f')
  {
    assert CountSettings(c, a, f) == CountSettings(c', a, f') && CryptoSettings(c, a) == CryptoSettings(c', a);
  }

  lemma SameHeader(c: Case, c': Case, a: Args, h: Headers)
    requires Admissible(c) && Admissible(c')
    requires a.universalKem || c.kexGroup == c'.kexGroup
    requires a.universalCa || Slug(c.certSigAlg) == Slug(c'.certSigAlg)
    ensures TrustHeader(c, a, h) == TrustHeader(c', a, h)
  {
    SlugsAgree(c.certSigAlg);
    SlugsAgree(c'.certSigAlg);
  }

  /** Cache soundness: within one run, equal profile keys mean equal overlay and equal header. */
  lemma EqualKeysEqualImages(c: Case, f: Forced, c': Case, f': Forced, a: Args, h: Headers, hash: string -> string)
    requires CollisionFree(hash, {Profile(c, f), Profile(c', f')}, a) && Admissible(c) && Admissible(c')
    requires ProfileKey(c, a, f, hash) == ProfileKey(c', a, f', hash)
    ensures ImageOf(c, a, f, h) == ImageOf(c', a, f', h)
  {
    EqualKeysEqualFullKeys(c, f, c', f', a, hash);
    FullKeyDecodes(c, f, c', f', a);
    GroupFromSlug(c.kexGroup);
    GroupFromSlug(c'.kexGroup);
    if !a.universalCa {
      SamePrefix("cert_", Slug(c.certSigAlg), Slug(c'.certSigAlg));
    }
    SameOverlay(c, f, c', f', a);
    SameHeader(c, c', a, h);
  }

  function KeyOf(a: Args, hash: string -> string): Profile -> string {
    (p: Profile) => ProfileKey(p.c, a, p.f, hash)
  }

  function FreshBuild(a: Args, h: Headers): Profile -> Image {
    (p: Profile) => ImageOf(p.c, a, p.f, h)
  }

  /** Every entry is what building any profile of that key would give. */
  ghost predicate Sound(builds: map<string, Image>, profiles: set<Profile>, key: Profile -> string, build: Profile -> Image) {
    forall p <- profiles :: key(p) in builds ==> builds[key(p)] == build(p)
  }

  ghost predicate Determines(key: Profile -> string, build: Profile -> Image, profiles: set<Profile>) {
    forall p <- profiles, q <- profiles :: key(p) == key(q) ==> build(p) == build(q)
  }

  lemma AddKeepsSound(builds: map<string, Image>, profiles: set<Profile>, key: Profile -> string, build: Profile -> Image, p: Profile)
    requires Sound(builds, profiles, key, build) && Determines(key, build, profiles) && p in profiles
    ensures Sound(builds[key(p) := build(p)], profiles, key, build)
  {}

  /** Over all profiles of a run the key determines the image. */
  lemma KeysDetermineImages(profiles: set<Profile>, a: Args, h: Headers, hash: string -> string)
    requires CollisionFree(hash, profiles, a) && forall p <- profiles :: Admissible(p.c)
    ensures Determines(KeyOf(a, hash), FreshBuild(a, h), profiles)
  {
    forall p, q | p in profiles && q in profiles && KeyOf(a, hash)(p) == KeyOf(a, hash)(q)
      ensures FreshBuild(a, h)(p) == FreshBuild(a, h)(q)
    {
      CollisionFreePair(profiles, a, hash, p, q);
      EqualKeysEqualImages(p.c, p.f, q.c, q.f, a, h, hash);
    }
  }

  /** The image of an admissible case is configured as the case and the arguments say if and only if
      both count texts are of one line. */
  lemma ConfiguresItsCase(p: Profile, a: Args, h: Headers)
    requires Admissible(p.c)
    ensures ReadsBack(ImageOf(p.c, a, p.f, h).overlay, p.c, a, p.f) <==>
            OneLine(IterText(p.c, p.f)) && OneLine(WarmupText(p.c, p.f))
  {
    OverlayReadsBackExactly(p.c, a, p.f);
  }

  lemma CollisionFreePair(profiles: set<Profile>, a: Args, hash: string -> string, p: Profile, q: Profile)
    requires CollisionFree(hash, profiles, a) && p in profiles && q in profiles
    ensures CollisionFree(hash, {Profile(p.c, p.f), Profile(q.c, q.f)}, a)
  {
    assert {Profile(p.c, p.f), Profile(q.c, q.f)} <= profiles;
  }

  /** The builds of one run over the given profiles, found by profile key. */
  class BuildCache {
    const args: Args
    const headers: Headers
    const hash: string -> string
    ghost const profiles: set<Profile>
    var builds: map<string, Image>

    ghost predicate Valid()
      reads this
    {
      && CollisionFree(hash, profiles, args)
      && (forall p <- profiles :: Admissible(p.c))
      && Sound(builds, profiles, KeyOf(args, hash), FreshBuild(args, headers))
    }

    constructor (args: Args, headers: Headers, hash: string -> string, ghost profiles: set<Profile>)
      requires CollisionFree(hash, profiles, args) && forall p <- profiles :: Admissible(p.c)
      ensures Valid() && this.args == args && this.headers == headers && this.hash == hash
      ensures this.profiles == profiles && builds == map[]
    {
      this.args, this.headers, this.hash, this.profiles := args, headers, hash, profiles;
      builds := map[];
    }

    /** The image used for a case is the one a fresh build would give, cached or not, and it is
        configured as the case and the arguments say. */
    method Provide(c: Case, f: Forced) returns (image: Image)
      requires Valid() && Profile(c, f) in profiles
      modifies this
      ensures Valid() && image == ImageOf(c, args, f, headers)
      ensures ReadsBack(image.overlay, c, args, f) <==> OneLine(IterText(c, f)) && OneLine(WarmupText(c, f))
      ensures image.header == if args.universalCa then headers.bundle
        else headers.cached(if args.universalKem then "cert__" + Slug(c.certSigAlg) else c.caseId)
      ensures builds == old(builds)[KeyOf(args, hash)(Profile(c, f)) := image]
    {
      ConfiguresItsCase(Profile(c, f), args, headers);
      var key := ProfileKey(c, args, f, hash);
      assert KeyOf(args, hash)(Profile(c, f)) == key;
      if key in builds {
        image := builds[key];
      } else {
        image := ImageOf(c, args, f, headers);
        assert FreshBuild(args, headers)(Profile(c, f)) == image;
        KeysDetermineImages(profiles, args, headers, hash);
        AddKeepsSound(builds, profiles, KeyOf(args, hash), FreshBuild(args, headers), Profile(c, f));
        builds := builds[key := image];
      }
    }
  }
}
