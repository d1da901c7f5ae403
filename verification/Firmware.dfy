/** From cached builds to the board: which firmware image a session that returned was measured on
    (benchmarking/run_benchmarks.py, prepare_case_for_schedule and run_scheduled_session). */
module Firmware {
  import opened Options
  import opened Overlay
  import opened Ledger
  import opened BuildCache
  import opened SessionPlan
  import Flash = FlashCache

  ghost predicate AllBuilt(builds: map<string, Image>, key: Profile -> string, owners: seq<Profile>, n: nat)
    requires n <= |owners|
  {
    forall i :: 0 <= i < n ==> key(owners[i]) in builds
  }

  lemma AllBuiltStep(before: map<string, Image>, after: map<string, Image>, key: Profile -> string, owners: seq<Profile>, k: nat)
    requires k < |owners| && AllBuilt(before, key, owners, k)
    requires before.Keys <= after.Keys && key(owners[k]) in after
    ensures AllBuilt(after, key, owners, k + 1)
  {}

  /** Builds the firmware of every prepared case, each key once. */
  method PrepareBuilds(cache: BuildCache, owners: seq<Profile>)
    requires cache.Valid() && forall p <- owners :: p in cache.profiles
    modifies cache
    ensures cache.Valid() && AllBuilt(cache.builds, KeyOf(cache.args, cache.hash), owners, |owners|)
  {
    ghost var key := KeyOf(cache.args, cache.hash);
    for k := 0 to |owners|
      invariant cache.Valid() && AllBuilt(cache.builds, key, owners, k)
    {
      ghost var before := cache.builds;
      var image := cache.Provide(owners[k].c, owners[k].f);
      AllBuiltStep(before, cache.builds, key, owners, k);
    }
  }

  /** Session `k` is one of profile `owners[k]`, whose key has been built. */
  ghost predicate Keyed(sessions: seq<Flash.Session>, owners: seq<Profile>, key: Profile -> string, builds: map<string, Image>) {
    && |sessions| == |owners| && AllBuilt(builds, key, owners, |owners|)
    && forall k :: 0 <= k < |sessions| ==> sessions[k].key == key(owners[k])
  }

  /** The image on the board when session `k` was measured. */
  function ImageRun(st: Flash.FlashState, sessions: seq<Flash.Session>, k: nat, builds: map<string, Image>): Option<Image>
    requires k < |sessions|
  {
    var held := Flash.Run(false, st, sessions, k + 1).board;
    if held.Some? && held.value in builds then Some(builds[held.value]) else None
  }

  /** The counts forced on the firmware of a case: those of one full session when it is split. */
  function ForcedCounts(warmups: int, iterations: int, limit: int): Forced {
    if limit > 0 && warmups + iterations > limit then Forced(limit) else Unforced
  }

  /** How many attempts the firmware makes after power-on. */
  function FirmwareAttempts(warmups: int, iterations: int, f: Forced): int {
    if f.Forced? then f.limit else warmups + iterations
  }

  /** The firmware of a case makes as many attempts as any of its sessions waits for, and exactly as
      many as each but the last of a split case. */
  lemma FirmwareServesSessions(warmups: int, iterations: int, limit: int, k: nat)
    requires k < |Batches(warmups, iterations, limit)|
    ensures
      var batches := Batches(warmups, iterations, limit);
      var attempts := FirmwareAttempts(warmups, iterations, ForcedCounts(warmups, iterations, limit));
      && batches[k].Size() <= attempts
      && (k < |batches| - 1 || limit <= 0 ==> batches[k].Size() == attempts)
  {
    BatchesFillTheLimit(warmups, iterations, limit);
  }

  /** A session that returns was measured on exactly what a fresh build of its case gives, unless
      the key on record was its own and stale. */
  lemma ReturnedRanFreshBuild(profiles: set<Profile>, key: Profile -> string, build: Profile -> Image, builds: map<string, Image>,
                              st: Flash.FlashState, sessions: seq<Flash.Session>, owners: seq<Profile>, k: nat)
    requires Sound(builds, profiles, key, build) && Keyed(sessions, owners, key, builds) && forall p <- owners :: p in profiles
    requires Flash.Sound(st) && k < |sessions| && sessions[k].outcome.Returned?
    requires Flash.Run(false, st, sessions, k).recorded == Some(sessions[k].key) ==>
      !exists j: nat :: j < k && Flash.StaleSince(false, st, sessions, j, k)
    ensures ImageRun(st, sessions, k, builds) == Some(build(owners[k]))
  {
    Flash.WrongImageExactly(st, sessions, k);
    assert owners[k] in profiles;
  }

  /** If no session raises after touching the board, every session that returns was. */
  lemma CarefulRunsMeasureTheirCase(profiles: set<Profile>, key: Profile -> string, build: Profile -> Image, builds: map<string, Image>,
                                    st: Flash.FlashState, sessions: seq<Flash.Session>, owners: seq<Profile>, k: nat)
    requires Sound(builds, profiles, key, build) && Keyed(sessions, owners, key, builds) && forall p <- owners :: p in profiles
    requires Flash.Sound(st) && k < |sessions| && sessions[k].outcome.Returned?
    requires forall s <- sessions :: s.outcome.Raised? ==> s.outcome.fate == Untouched
    ensures ImageRun(st, sessions, k, builds) == Some(build(owners[k]))
  {
    Flash.CarefulRunsAreSound(st, sessions);
    assert !Flash.RanOnWrongImage(false, st, sessions, k);
    assert owners[k] in profiles;
  }
}
