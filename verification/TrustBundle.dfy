/** Certificates served to a case against the CA bundle compiled into its firmware
    (benchmarking/run_benchmarks.py, the certificate cache and prepare_universal_ca_bundle). */
module TrustBundle {
  import opened Options
  import opened Overlay
  import opened Slugs
  import opened Text
  import opened BuildCache

  /** A cache directory: which files exist, certificates by the authority they come from. */
  datatype Entry = Entry(ca: Option<nat>, issuer: Option<nat>, serverKey: bool, header: bool)

  predicate Reusable(e: Entry) { e.ca.Some? && e.issuer.Some? && e.serverKey }

  predicate Restorable(e: Entry) { e.issuer.Some? && e.serverKey && e.header }

  /** Passes the bundle's check but not the case's: everything is there except the header. */
  predicate LacksHeaderOnly(e: Entry) { Reusable(e) && !e.header }

  predicate Holds(e: Entry, authority: nat) { e.ca == Some(authority) || e.issuer == Some(authority) }

  type Cache = map<string, Entry>

  /** Each entry's certificates belong together, authorities are not shared between entries, and
      none was created after `next`. */
  ghost predicate Consistent(cache: Cache, next: nat) {
    && (forall k <- cache :: Reusable(cache[k]) ==> cache[k].ca == cache[k].issuer)
    && (forall k <- cache, n: nat :: Holds(cache[k], n) ==> n < next)
    && forall k <- cache, k' <- cache, n: nat :: Holds(cache[k], n) && Holds(cache[k'], n) ==> k == k'
  }

  /** Every authority behind a cached certificate was made for an algorithm that fits the entry's key. */
  ghost predicate Fitting(cache: Cache, madeFor: map<nat, string>, fits: (string, string) -> bool) {
    forall k <- cache, n: nat :: Holds(cache[k], n) ==> n in madeFor && fits(k, madeFor[n])
  }

  function Whole(authority: nat): Entry { Entry(Some(authority), Some(authority), true, true) }

  lemma AddWhole(cache: Cache, next: nat, key: string)
    requires Consistent(cache, next)
    ensures Consistent(cache[key := Whole(next)], next + 1)
  {}

  lemma AddFitting(cache: Cache, next: nat, key: string, algorithm: string,
                   madeFor: map<nat, string>, fits: (string, string) -> bool)
    requires Consistent(cache, next) && Fitting(cache, madeFor, fits) && fits(key, algorithm)
    ensures Fitting(cache[key := Whole(next)], madeFor[next := algorithm], fits)
  {
    forall k, n: nat | k in cache && Holds(cache[k], n) ensures n != next {}
  }

  predicate FirstOfAlgorithm(rows: seq<Case>, i: nat)
    requires i < |rows|
  {
    forall j :: 0 <= j < i ==> rows[j].certSigAlg != rows[i].certSigAlg
  }

  /** Cache entries the bundle is made from: those of the first case of each algorithm, here among
      the first `n` cases. */
  function BundleKeys(rows: seq<Case>, n: nat, keyOf: Case -> string): set<string>
    requires n <= |rows|
  {
    if n == 0 then {}
    else BundleKeys(rows, n - 1, keyOf) + if FirstOfAlgorithm(rows, n - 1) then {keyOf(rows[n - 1])} else {}
  }

  lemma {:induction false} MakerOfKey(rows: seq<Case>, n: nat, keyOf: Case -> string, key: string) returns (i: nat)
    requires n <= |rows| && key in BundleKeys(rows, n, keyOf)
    ensures i < n && FirstOfAlgorithm(rows, i) && keyOf(rows[i]) == key
  {
    if key in BundleKeys(rows, n - 1, keyOf) {
      i := MakerOfKey(rows, n - 1, keyOf, key);
    } else {
      i := n - 1;
    }
  }

  lemma {:induction false} FirstMakesKey(rows: seq<Case>, n: nat, keyOf: Case -> string, i: nat)
    requires i < n <= |rows| && FirstOfAlgorithm(rows, i)
    ensures keyOf(rows[i]) in BundleKeys(rows, n, keyOf)
    decreases n
  {
    if i == n - 1 {
    } else {
      FirstMakesKey(rows, n - 1, keyOf, i);
    }
  }

  lemma {:induction false} BundleKeysGrow(rows: seq<Case>, m: nat, n: nat, keyOf: Case -> string)
    requires m <= n <= |rows|
    ensures BundleKeys(rows, m, keyOf) <= BundleKeys(rows, n, keyOf)
    decreases n
  {
    if m == n {
    } else {
      BundleKeysGrow(rows, m, n - 1, keyOf);
    }
  }

  /** cert_artifact_cache_key for the given arguments. */
  function CacheKey(a: Args): Case -> string { (c: Case) => ArtifactKey(c, a) }

  /** The authority's certificate, the server's and its key are there. */
  predicate HasPair(cache: Cache, key: string) {
    key in cache && cache[key].ca.Some? && cache[key].issuer.Some? && cache[key].serverKey
  }

  predicate ReusableAt(cache: Cache, key: string) { key in cache && Reusable(cache[key]) }

  predicate RestorableAt(cache: Cache, key: string) { key in cache && Restorable(cache[key]) }

  /** The entry of case `i`, the first of its algorithm, is reusable, or already asked for by another
      algorithm, or the generator supports the algorithm. */
  predicate CanBeMadeAt(rows: seq<Case>, i: nat, initial: Cache, keyOf: Case -> string, supported: string -> bool)
    requires i < |rows|
  {
    ReusableAt(initial, keyOf(rows[i])) || keyOf(rows[i]) in BundleKeys(rows, i, keyOf) || supported(rows[i].certSigAlg)
  }

  /** Every entry that the first `n` cases ask for can be made. */
  predicate CanBeMade(rows: seq<Case>, n: nat, initial: Cache, keyOf: Case -> string, supported: string -> bool)
    requires n <= |rows|
  {
    forall i :: 0 <= i < n && FirstOfAlgorithm(rows, i) ==> CanBeMadeAt(rows, i, initial, keyOf, supported)
  }

  function Outside(cache: Cache, keys: set<string>): Cache { cache - keys }

  /** Every key has a reusable entry: the one it had if that was reusable, else a whole new one. */
  ghost predicate Ensured(before: Cache, after: Cache, keys: set<string>) {
    forall k <- keys ::
      && HasPair(after, k)
      && if HasPair(before, k) then after[k] == before[k] else HasPair(after, k) && after[k].header
  }

  /** The bundle entries of the first `n` cases are ensured and no other entry has changed. */
  ghost predicate EnsuredFor(rows: seq<Case>, n: nat, before: Cache, after: Cache, keyOf: Case -> string)
    requires n <= |rows|
  {
    var keys := BundleKeys(rows, n, keyOf);
    Ensured(before, after, keys) && Outside(after, keys) == Outside(before, keys)
  }

  predicate OthersKept(rows: seq<Case>, before: Cache, after: Cache, keyOf: Case -> string) {
    var keys := BundleKeys(rows, |rows|, keyOf);
    Outside(after, keys) == Outside(before, keys)
  }

  lemma EnsuredKeepsOthers(rows: seq<Case>, n: nat, before: Cache, after: Cache, keyOf: Case -> string)
    requires n <= |rows| && EnsuredFor(rows, n, before, after, keyOf)
    ensures OthersKept(rows, before, after, keyOf)
  {
    BundleKeysGrow(rows, n, |rows|, keyOf);
    OutsideGrows(before, after, BundleKeys(rows, n, keyOf), BundleKeys(rows, |rows|, keyOf));
  }

  lemma EnsureStep(before: Cache, cache: Cache, keys: set<string>, key: string, authority: nat)
    requires Ensured(before, cache, keys) && Outside(cache, keys) == Outside(before, keys)
    ensures
      var after := if key in cache && Reusable(cache[key]) then cache else cache[key := Whole(authority)];
      Ensured(before, after, keys + {key}) && Outside(after, keys + {key}) == Outside(before, keys + {key})
  {
    if key !in keys {
      assert key in cache ==> key in Outside(cache, keys) && cache[key] == Outside(cache, keys)[key];
      assert key in before ==> key in Outside(before, keys) && before[key] == Outside(before, keys)[key];
    }
    var after := if key in cache && Reusable(cache[key]) then cache else cache[key := Whole(authority)];
    assert Outside(after, keys + {key}) == Outside(cache, keys) - {key};
    assert Outside(before, keys + {key}) == Outside(before, keys) - {key};
  }

  /** An entry not yet asked for is as it was; one already asked for is reusable. */
  lemma StillAsItWas(before: Cache, cache: Cache, keys: set<string>, key: string)
    requires Ensured(before, cache, keys) && Outside(cache, keys) == Outside(before, keys)
    ensures ReusableAt(cache, key) <==> ReusableAt(before, key) || key in keys
  {
    if key !in keys {
      assert key in cache ==> key in Outside(cache, keys) && cache[key] == Outside(cache, keys)[key];
      assert key in before ==> key in Outside(before, keys) && before[key] == Outside(before, keys)[key];
    }
  }

  lemma OutsideGrows(before: Cache, after: Cache, keys: set<string>, more: set<string>)
    requires Outside(after, keys) == Outside(before, keys) && keys <= more
    ensures Outside(after, more) == Outside(before, more)
  {
    assert Outside(after, more) == Outside(after, keys) - more;
    assert Outside(before, more) == Outside(before, keys) - more;
  }

  class CertificateStore {
    const keyOf: Case -> string
    /** Algorithms the certificate generator supports. */
    const supported: string -> bool
    /** Which algorithms may stand under a key. */
    ghost const fits: (string, string) -> bool
    var cache: Cache
    var nextAuthority: nat
    /** The algorithm each authority was made for. */
    ghost var madeFor: map<nat, string>

    ghost predicate Valid()
      reads this
    {
      && Consistent(cache, nextAuthority) && Fitting(cache, madeFor, fits)
      && forall n <- madeFor :: n < nextAuthority
    }

    constructor (keyOf: Case -> string, supported: string -> bool, cache: Cache, nextAuthority: nat,
                 ghost madeFor: map<nat, string>, ghost fits: (string, string) -> bool)
      requires Consistent(cache, nextAuthority) && Fitting(cache, madeFor, fits) && forall n <- madeFor :: n < nextAuthority
      ensures Valid() && this.keyOf == keyOf && this.supported == supported && this.cache == cache
      ensures this.fits == fits && this.madeFor == madeFor
    {
      this.keyOf, this.supported, this.cache, this.nextAuthority := keyOf, supported, cache, nextAuthority;
      this.fits, this.madeFor := fits, madeFor;
    }

    /** Every case's algorithm may stand under its key. */
    ghost predicate Fits(rows: seq<Case>) {
      forall i :: 0 <= i < |rows| ==> fits(keyOf(rows[i]), rows[i].certSigAlg)
    }

    /** Generates a new authority and server certificate and caches both under `key`. */
    method GenerateInto(key: string, algorithm: string) returns (ok: bool)
      requires Valid() && fits(key, algorithm)
      modifies this
      ensures Valid() && ok == supported(algorithm)
      ensures !ok ==> cache == old(cache) && nextAuthority == old(nextAuthority) && madeFor == old(madeFor)
      ensures ok ==> nextAuthority == old(nextAuthority) + 1 && madeFor == old(madeFor)[old(nextAuthority) := algorithm]
      ensures ok ==> cache == old(cache)[key := Entry(Some(old(nextAuthority)), Some(old(nextAuthority)), true, true)]
    {
      if !supported(algorithm) {
        return false;
      }
      AddWhole(cache, nextAuthority, key);
      AddFitting(cache, nextAuthority, key, algorithm, madeFor, fits);
      madeFor := madeFor[nextAuthority := algorithm];
      cache := cache[key := Whole(nextAuthority)];
      nextAuthority := nextAuthority + 1;
      return true;
    }

    /** ensure_cached_cert_artifacts, the entries `keys` having been ensured since `before`. */
    method EnsureEntry(key: string, algorithm: string, ghost before: Cache, ghost keys: set<string>) returns (ok: bool)
      requires Valid() && fits(key, algorithm)
      requires Ensured(before, cache, keys) && Outside(cache, keys) == Outside(before, keys)
      modifies this
      ensures Valid() && (ok <==> HasPair(before, key) || key in keys || supported(algorithm))
      ensures ok ==> Ensured(before, cache, keys + {key}) && Outside(cache, keys + {key}) == Outside(before, keys + {key})
      ensures !ok ==> cache == old(cache)
    {
      EnsureStep(before, cache, keys, key, nextAuthority);
      StillAsItWas(before, cache, keys, key);
      if key in cache && Reusable(cache[key]) {
        return true;
      }
      ok := GenerateInto(key, algorithm);
    }

    /** The entry of case `i`, if it is the first of its algorithm. */
    method EnsureFirst(rows: seq<Case>, i: nat, ghost before: Cache) returns (ok: bool)
      requires Valid() && Fits(rows) && i < |rows| && EnsuredFor(rows, i, before, cache, keyOf)
      modifies this
      ensures Valid() && (ok <==> (FirstOfAlgorithm(rows, i) ==> CanBeMadeAt(rows, i, before, keyOf, supported)))
      ensures ok ==> EnsuredFor(rows, i + 1, before, cache, keyOf)
      ensures !ok ==> cache == old(cache)
    {
      if FirstOfAlgorithm(rows, i) {
        ok := EnsureEntry(keyOf(rows[i]), rows[i].certSigAlg, before, BundleKeys(rows, i, keyOf));
      } else {
        assert BundleKeys(rows, i + 1, keyOf) == BundleKeys(rows, i, keyOf);
        ok := true;
      }
    }

    /** Makes sure every entry the bundle needs exists, generating those that are not reusable;
        fails as a whole if one cannot be made. */
    method EnsureBundleEntries(rows: seq<Case>) returns (ok: bool)
      requires Valid() && Fits(rows)
      modifies this
      ensures Valid() && OthersKept(rows, old(cache), cache, keyOf)
      ensures ok <==> CanBeMade(rows, |rows|, old(cache), keyOf, supported)
      ensures ok ==> EnsuredFor(rows, |rows|, old(cache), cache, keyOf)
    {
      for i := 0 to |rows|
        invariant Valid() && EnsuredFor(rows, i, old(cache), cache, keyOf) && CanBeMade(rows, i, old(cache), keyOf, supported)
      {
        ok := EnsureFirst(rows, i, old(cache));
        if !ok {
          EnsuredKeepsOthers(rows, i, old(cache), cache, keyOf);
          return;
        }
      }
      EnsuredKeepsOthers(rows, |rows|, old(cache), cache, keyOf);
      return true;
    }

    /** The authority behind the certificate a case is served, None when the case is not prepared:
        restored from the cache, or generated anew unless flashing is skipped. */
    method PrepareCase(c: Case, skipFlash: bool) returns (served: Option<nat>)
      requires Valid() && fits(keyOf(c), c.certSigAlg)
      modifies this
      ensures Valid() && nextAuthority >= old(nextAuthority) && Remembers(old(madeFor), madeFor)
      ensures served.Some? ==> MadeToFit(served.value, keyOf(c), madeFor, fits)
      ensures
        var key := keyOf(c);
        if key in old(cache) && old(cache)[key].issuer.Some? && old(cache)[key].serverKey && old(cache)[key].header
        then cache == old(cache) && served == old(cache)[key].issuer
        else if skipFlash || !supported(c.certSigAlg) then cache == old(cache) && served == None
        else cache == old(cache)[key := Whole(old(nextAuthority))] && served == Some(old(nextAuthority))
    {
      var key := keyOf(c);
      if key in cache && Restorable(cache[key]) {
        assert Holds(cache[key], cache[key].issuer.value);
        return cache[key].issuer;
      }
      if skipFlash {
        return None;
      }
      var authority := nextAuthority;
      var ok := GenerateInto(key, c.certSigAlg);
      return if ok then Some(authority) else None;
    }

    /** PrepareCase while the cache is split by `trusted`: it stays split, and what is served is in
        the bundle exactly when the case's entry is trusted. */
    method ServeCase(c: Case, skipFlash: bool, ghost bundle: set<nat>, ghost trusted: set<string>) returns (served: Option<nat>)
      requires Valid() && fits(keyOf(c), c.certSigAlg) && Splits(cache, bundle, trusted, nextAuthority)
      modifies this
      ensures Valid() && Splits(cache, bundle, trusted, nextAuthority) && Remembers(old(madeFor), madeFor)
      ensures served.Some? ==> MadeToFit(served.value, keyOf(c), madeFor, fits)
      ensures served.Some? ==> (served.value in bundle <==> keyOf(c) in trusted)
      ensures served.Some? <==> RestorableAt(old(cache), keyOf(c)) || (!skipFlash && supported(c.certSigAlg))
      ensures forall k :: RestorableAt(cache, k) <==> RestorableAt(old(cache), k) || (k == keyOf(c) && served.Some?)
    {
      SplitsAdd(cache, bundle, trusted, nextAuthority, keyOf(c));
      served := PrepareCase(c, skipFlash);
    }

    /** prepare_universal_ca_bundle: fails exactly when an entry cannot be made, and otherwise the
        bundle holds the authorities of the entries and no others. */
    method PrepareBundle(rows: seq<Case>) returns (ok: bool, bundle: set<nat>)
      requires Valid() && Fits(rows)
      modifies this
      ensures Valid() && (ok <==> CanBeMade(rows, |rows|, old(cache), keyOf, supported))
      ensures ok ==> BundleMade(rows, keyOf, old(cache), cache, bundle)
      ensures ok ==> Splits(cache, bundle, TrustedKeys(old(cache), BundleKeys(rows, |rows|, keyOf)), nextAuthority)
    {
      ok := EnsureBundleEntries(rows);
      var keys := BundleKeys(rows, |rows|, keyOf);
      bundle := Authorities(cache, keys);
      if ok {
        BundleSplits(old(cache), cache, keys, nextAuthority);
      }
    }

    /** Every case in turn, the cache being split by `trusted`. */
    method ServeAll(rows: seq<Case>, skipFlash: bool, ghost bundle: set<nat>, ghost trusted: set<string>)
      returns (served: seq<Option<nat>>)
      requires Valid() && Fits(rows) && Splits(cache, bundle, trusted, nextAuthority)
      modifies this
      ensures Valid() && |served| == |rows| && ServedToFit(rows, served, keyOf, madeFor, fits)
      ensures TrustedExactly(rows, served, bundle, trusted, keyOf)
      ensures ServedExactly(rows, served, skipFlash, old(cache), keyOf, supported)
    {
      served := [];
      for i := 0 to |rows|
        invariant Valid() && |served| == i && Splits(cache, bundle, trusted, nextAuthority)
        invariant ServedToFit(rows, served, keyOf, madeFor, fits)
        invariant TrustedExactly(rows, served, bundle, trusted, keyOf)
        invariant ServedExactly(rows, served, skipFlash, old(cache), keyOf, supported)
        invariant RestorableAreAvailable(cache, rows, i, skipFlash, old(cache), keyOf, supported)
      {
        var authority := ServeCase(rows[i], skipFlash, bundle, trusted);
        served := served + [authority];
      }
    }

    /** The whole preparation: bundle first, then every case. `made` is the cache in between. */
    method PrepareRun(rows: seq<Case>, skipFlash: bool)
      returns (ok: bool, bundle: set<nat>, served: seq<Option<nat>>, ghost made: Cache)
      requires Valid() && Fits(rows)
      modifies this
      ensures Valid() && (ok <==> CanBeMade(rows, |rows|, old(cache), keyOf, supported))
      ensures ok ==> Prepared(rows, skipFlash, keyOf, supported, old(cache), made, bundle, served)
      ensures ok ==> ServedToFit(rows, served, keyOf, madeFor, fits)
    {
      ghost var trusted := TrustedKeys(cache, BundleKeys(rows, |rows|, keyOf));
      served := [];
      ok, bundle := PrepareBundle(rows);
      made := cache;
      if ok {
        served := ServeAll(rows, skipFlash, bundle, trusted);
      }
    }
  }

  ghost predicate Remembers(before: map<nat, string>, after: map<nat, string>) {
    forall n <- before :: n in after && after[n] == before[n]
  }

  /** The authority was made for an algorithm that fits the key. */
  ghost predicate MadeToFit(authority: nat, key: string, madeFor: map<nat, string>, fits: (string, string) -> bool) {
    authority in madeFor && fits(key, madeFor[authority])
  }

  ghost predicate ServedToFit(rows: seq<Case>, served: seq<Option<nat>>, keyOf: Case -> string,
                              madeFor: map<nat, string>, fits: (string, string) -> bool) {
    |served| <= |rows| &&
    forall i :: 0 <= i < |served| && served[i].Some? ==> MadeToFit(served[i].value, keyOf(rows[i]), madeFor, fits)
  }

  ghost predicate RestorableAreAvailable(cache: Cache, rows: seq<Case>, n: nat, skipFlash: bool, made: Cache,
                                         keyOf: Case -> string, supported: string -> bool)
    requires n <= |rows|
  {
    forall k :: RestorableAt(cache, k) <==> Available(rows, n, k, skipFlash, made, keyOf, supported)
  }

  /** The entries the bundle needs exist, no other entry changed, and the bundle is theirs. */
  ghost predicate BundleMade(rows: seq<Case>, keyOf: Case -> string, initial: Cache, made: Cache, bundle: set<nat>) {
    EnsuredFor(rows, |rows|, initial, made, keyOf) && bundle == Authorities(made, BundleKeys(rows, |rows|, keyOf))
  }

  /** A case with key `key` is served after the first `n` cases: the entry was restorable when the
      bundle was made, or one of those cases could generate it. */
  predicate Available(rows: seq<Case>, n: nat, key: string, skipFlash: bool, made: Cache,
                      keyOf: Case -> string, supported: string -> bool)
    requires n <= |rows|
  {
    || RestorableAt(made, key)
    || (!skipFlash && MayGenerate(rows, n, key, keyOf, supported))
  }

  predicate MayGenerate(rows: seq<Case>, n: nat, key: string, keyOf: Case -> string, supported: string -> bool)
    requires n <= |rows|
  {
    n > 0 &&
    (MayGenerate(rows, n - 1, key, keyOf, supported) || (keyOf(rows[n - 1]) == key && supported(rows[n - 1].certSigAlg)))
  }

  predicate ServedExactly(rows: seq<Case>, served: seq<Option<nat>>, skipFlash: bool, made: Cache,
                          keyOf: Case -> string, supported: string -> bool) {
    |served| <= |rows| &&
    forall i :: 0 <= i < |served| ==>
      (served[i].Some? <==> Available(rows, i + 1, keyOf(rows[i]), skipFlash, made, keyOf, supported))
  }

  /** What a prepared run leaves: the bundle, which cases are served, and which of those from an
      authority in the bundle. */
  ghost predicate Prepared(rows: seq<Case>, skipFlash: bool, keyOf: Case -> string, supported: string -> bool,
                           initial: Cache, made: Cache, bundle: set<nat>, served: seq<Option<nat>>) {
    && |served| == |rows| && BundleMade(rows, keyOf, initial, made, bundle)
    && ServedExactly(rows, served, skipFlash, made, keyOf, supported)
    && TrustedExactly(rows, served, bundle, TrustedKeys(initial, BundleKeys(rows, |rows|, keyOf)), keyOf)
  }

  /** A served certificate is trusted exactly when the case's entry is. */
  ghost predicate TrustedExactly(rows: seq<Case>, served: seq<Option<nat>>, bundle: set<nat>, trusted: set<string>,
                                 keyOf: Case -> string) {
    |served| <= |rows| &&
    forall i :: 0 <= i < |served| && served[i].Some? ==> (served[i].value in bundle <==> keyOf(rows[i]) in trusted)
  }

  /** The authorities in the bundle header. */
  function Authorities(cache: Cache, keys: set<string>): set<nat>
  {
    set k | k in keys && k in cache && cache[k].ca.Some? :: cache[k].ca.value
  }

  function TrustedKeys(initial: Cache, keys: set<string>): set<string> {
    set k | k in keys && !(k in initial && LacksHeaderOnly(initial[k]))
  }

  /** What can be restored is trusted exactly under the trusted keys, and they can be restored. */
  ghost predicate Splits(cache: Cache, bundle: set<nat>, trusted: set<string>, next: nat) {
    && (forall k <- cache :: Restorable(cache[k]) ==> (cache[k].issuer.value in bundle <==> k in trusted))
    && (forall k <- trusted :: k in cache && Restorable(cache[k]))
    && forall n <- bundle :: n < next
  }

  lemma SplitsAdd(cache: Cache, bundle: set<nat>, trusted: set<string>, next: nat, key: string)
    requires Splits(cache, bundle, trusted, next)
    ensures !(key in cache && Restorable(cache[key])) ==>
      key !in trusted && next !in bundle && Splits(cache[key := Whole(next)], bundle, trusted, next + 1)
  {}

  lemma BundleSplits(initial: Cache, cache: Cache, keys: set<string>, next: nat)
    requires Consistent(cache, next) && Ensured(initial, cache, keys) && Outside(cache, keys) == Outside(initial, keys)
    ensures Splits(cache, Authorities(cache, keys), TrustedKeys(initial, keys), next)
  {
    var bundle, trusted := Authorities(cache, keys), TrustedKeys(initial, keys);
    forall k | k in cache && Restorable(cache[k]) ensures cache[k].issuer.value in bundle <==> k in trusted {
      var n := cache[k].issuer.value;
      assert Holds(cache[k], n);
      if n in bundle {
        var k' :| k' in keys && k' in cache && cache[k'].ca == Some(n);
        assert Holds(cache[k'], n) && k == k';
      }
    }
    forall n | n in bundle ensures n < next {
      var k :| k in keys && k in cache && cache[k].ca == Some(n);
      assert Holds(cache[k], n);
    }
  }

  lemma {:induction false} FirstExists(rows: seq<Case>, i: nat) returns (j: nat)
    requires i < |rows|
    ensures j <= i && FirstOfAlgorithm(rows, j) && rows[j].certSigAlg == rows[i].certSigAlg
    decreases i
  {
    if FirstOfAlgorithm(rows, i) {
      j := i;
    } else {
      var earlier: nat :| earlier < i && rows[earlier].certSigAlg == rows[i].certSigAlg;
      j := FirstExists(rows, earlier);
    }
  }

  predicate StartsWithoutHeader(initial: Cache, key: string) { key in initial && LacksHeaderOnly(initial[key]) }

  /** In a prepared run a case is served a certificate the firmware trusts if and only if the bundle
      was made from its entry and that entry did not start out lacking only its header. */
  lemma TrustedIsServed(rows: seq<Case>, i: nat, skipFlash: bool, keyOf: Case -> string, supported: string -> bool,
                        initial: Cache, made: Cache, bundle: set<nat>, served: seq<Option<nat>>)
    requires i < |rows| && Prepared(rows, skipFlash, keyOf, supported, initial, made, bundle, served)
    ensures served[i].Some? && served[i].value in bundle <==>
            keyOf(rows[i]) in BundleKeys(rows, |rows|, keyOf) && !StartsWithoutHeader(initial, keyOf(rows[i]))
  {
    var key := keyOf(rows[i]);
    if key in TrustedKeys(initial, BundleKeys(rows, |rows|, keyOf)) {
      assert RestorableAt(made, key);
      assert Available(rows, i + 1, key, skipFlash, made, keyOf, supported);
    }
  }

  /** With universal KEM every case shares an entry the bundle is made from, so every case is served
      a trusted certificate, flashing skipped or not, unless its entry lacked only its header. */
  lemma UniversalKemCovers(rows: seq<Case>, i: nat, a: Args, skipFlash: bool, supported: string -> bool,
                           initial: Cache, made: Cache, bundle: set<nat>, served: seq<Option<nat>>)
    requires i < |rows| && a.universalKem && Prepared(rows, skipFlash, CacheKey(a), supported, initial, made, bundle, served)
    ensures served[i].Some? && served[i].value in bundle <==> !StartsWithoutHeader(initial, ArtifactKey(rows[i], a))
  {
    var j := FirstExists(rows, i);
    FirstMakesKey(rows, |rows|, CacheKey(a), j);
    assert ArtifactKey(rows[i], a) == ArtifactKey(rows[j], a);
    TrustedIsServed(rows, i, skipFlash, CacheKey(a), supported, initial, made, bundle, served);
  }

  /** Without it entries are per case: only the first case of each algorithm is covered. */
  lemma PerCaseKeysCoverFirstOnly(rows: seq<Case>, i: nat, a: Args, skipFlash: bool, supported: string -> bool,
                                  initial: Cache, made: Cache, bundle: set<nat>, served: seq<Option<nat>>)
    requires i < |rows| && !a.universalKem && Prepared(rows, skipFlash, CacheKey(a), supported, initial, made, bundle, served)
    requires forall j, k :: 0 <= j < k < |rows| ==> rows[j].caseId != rows[k].caseId
    ensures served[i].Some? && served[i].value in bundle <==>
            FirstOfAlgorithm(rows, i) && !StartsWithoutHeader(initial, rows[i].caseId)
  {
    TrustedIsServed(rows, i, skipFlash, CacheKey(a), supported, initial, made, bundle, served);
    if FirstOfAlgorithm(rows, i) {
      FirstMakesKey(rows, |rows|, CacheKey(a), i);
    } else if rows[i].caseId in BundleKeys(rows, |rows|, CacheKey(a)) {
      var j := MakerOfKey(rows, |rows|, CacheKey(a), rows[i].caseId);
    }
  }

  /** The key ends, after its first double underscore, in the algorithm's slug. */
  predicate NamesAlgorithm(key: string, algorithm: string) {
    match Find("__", key)
    case Some(i) => i + 2 <= |key| && key[i + 2..] == Slug(algorithm)
    case None => false
  }

  lemma JoinNamesAlgorithm(first: string, algorithm: string)
    requires Clean(first)
    ensures NamesAlgorithm(first + "__" + Slug(algorithm), algorithm)
  {
    CleanOccurrence(first, Slug(algorithm));
    assert (first + "__" + Slug(algorithm))[|first| + 2..] == Slug(algorithm);
  }

  lemma SharedKeyNames(algorithm: string)
    ensures NamesAlgorithm("cert__" + Slug(algorithm), algorithm)
  {
    assert "cert__" == "cert" + "__";
    JoinNamesAlgorithm("cert", algorithm);
  }

  lemma CaseKeyNames(group: string, algorithm: string)
    ensures NamesAlgorithm(GeneratorSlug(group) + "__" + GeneratorSlug(algorithm), algorithm)
  {
    SlugsAgree(group);
    SlugsAgree(algorithm);
    SlugIsClean(group);
    JoinNamesAlgorithm(Slug(group), algorithm);
  }

  /** Every admissible case is cached under a key that names its algorithm. */
  lemma KeysNameAlgorithms(c: Case, a: Args)
    requires Admissible(c)
    ensures NamesAlgorithm(CacheKey(a)(c), c.certSigAlg)
  {
    if a.universalKem {
      SharedKeyNames(c.certSigAlg);
    } else {
      CaseKeyNames(c.kexGroup, c.certSigAlg);
    }
  }

  /** A run over admissible cases: whatever is served was made for an algorithm of the case's slug. */
  lemma ServedForItsAlgorithm(rows: seq<Case>, served: seq<Option<nat>>, a: Args, madeFor: map<nat, string>, i: nat)
    requires ServedToFit(rows, served, CacheKey(a), madeFor, NamesAlgorithm) && i < |served| && served[i].Some?
    requires forall c <- rows :: Admissible(c)
    ensures served[i].value in madeFor && Slug(madeFor[served[i].value]) == Slug(rows[i].certSigAlg)
  {
    assert rows[i] in rows;
    KeysNameAlgorithms(rows[i], a);
    assert MadeToFit(served[i].value, CacheKey(a)(rows[i]), madeFor, NamesAlgorithm);
  }

  /** One cached entry that lacks nothing but its header: the bundle trusts its authority 0, but the
      case is served a certificate of the new authority. */
  method MissingHeaderMisleads(c: Case, a: Args) returns (bundle: set<nat>, served: seq<Option<nat>>)
    ensures bundle == {0} && |served| == 1 && served[0].Some? && served[0].value !in bundle
  {
    var key := CacheKey(a)(c);
    var initial: Cache := map[key := Entry(Some(0), Some(0), true, false)];
    ghost var anything := (key: string, algorithm: string) => true;
    var store := new CertificateStore(CacheKey(a), algorithm => true, initial, 1, map[0 := c.certSigAlg], anything);
    var ok;
    ghost var made;
    ok, bundle, served, made := store.PrepareRun([c], false);
    assert BundleKeys([c], 1, CacheKey(a)) == BundleKeys([c], 0, CacheKey(a)) + {key};
    assert made[key] == initial[key] && StartsWithoutHeader(initial, key);
    assert Available([c], 1, key, false, made, CacheKey(a), algorithm => true);
    assert 0 in bundle;
  }
}
