# Model of the MQTT/TLS benchmark

The repository measures post-quantum TLS connections made by a small radio board. A Python runner
plans sessions, builds and flashes firmware, and keeps a ledger of attempts per case; the firmware
opens TCP, TLS and MQTT connections over a link with little buffering, survives reboots, and prints
one line per attempt; a plotter and a certificate generator work beside them. This project models
the parts of that system that hold state or arithmetic and proves what they are for.

`dafny verify dfyconfig.toml` checks everything.

| file | what it models |
|---|---|
| `SessionPlan.dfy`, `Ledger.dfy`, `Schedule.dfy`, `Summary.dfy` | cutting cases into sessions, the shuffled schedule, the per-case ledger, its summary |
| `CaseSession.dfy`, `Runner.dfy` | the steps of a session and what a raise in any of them leaves behind, the main loop |
| `FlashCache.dfy` | the remembered firmware key against the image on the board |
| `Overlay.dfy` | the configuration a build is made with, and a reader for it |
| `BuildCache.dfy`, `Slugs.dfy`, `Firmware.dfy` | profile keys against what a build is made of, and the image a session was measured on |
| `TrustBundle.dfy` | the certificate cache and the CA bundle |
| `CertHeader.dfy`, `BundleHeader.dfy` | the C headers that carry certificates, and a reader for them |
| `Reboot.dfy` | attempt numbering over retained memory, with a reset possible between any two words |
| `AttemptEngine.dfy` | one try, its timing, the retry loop and the status column |
| `NetWrite.dfy` | the chunked and the single-chunk socket writers |
| `Allocator.dfy`, `MlkemBackend.dfy` | the accounting allocator and the ML-KEM operations on top of it |
| `SerialLine.dfy`, `Text.dfy`, `AttemptLine.dfy` | the printed attempt line and its parser, also after the loss of a byte; what a parsed row says of its attempt |
| `Keepalive.dfy` | the MQTT loop of the main firmware against its keep-alive |
| `PlotData.dfy` | the plotter's fallback against the summary |
| `Sequences.dfy`, `Options.dfy`, `Numbers.dfy` | permutation facts, the option type, number types |

The environment is a parameter everywhere. Sockets, wolfMQTT calls, the clock, `k_malloc`, the
KEM primitives and the outcomes of sessions appear as functions or arguments over which every
statement quantifies; infinite behaviours are functions from `nat`. `random.shuffle` is a sequence
of exchanges chosen by an arbitrary function. Code that updates objects or runs loops is written as
classes and methods, each tied to a specification function about which the theorems are proved.

## Where the code does not do what one would expect

- An empty plan (no warm-ups, no iterations) still leaves one timeout row per session, so a complete
  run holds `sessions_per_case * (warmups + iterations)` rows exactly when that sum is positive
  (`Schedule.CompleteRunCounts`).
- A split plan conserves the requested counts exactly when neither is negative
  (`SessionPlan.BatchesConserve`); the warm-up flags agree in every case.
- A session that returns nothing is recorded as a timeout, but if it had warm-ups to run its row is
  flagged warm-up and the summary does not count it; a raising session is always counted
  (`Summary.LostSessionsInSummary`).
- The flash key is recorded only when a session returns. A session that raises after programming the
  board leaves a wrong record; `FlashCache.RecordIsWrongExactly` and `FlashCache.WrongImageExactly`
  say exactly when, and `FlashCache.RaiseAfterFlashMisleads` is a three-session schedule that ends on
  the wrong firmware. `FlashCache.FlashCount` counts flashes without any hypothesis: raised sessions
  do not count as runs of a key, and each one that touched the board costs one extra flash.
- An exception raised while a session is cleaned up discards the rows the session had collected; the
  case gets one error row instead (`Runner.BenchmarkRun.RunCaseSession`).
- A count text with a line end in it is accepted as a number but breaks the line that carries it to
  the firmware; `Overlay.OverlayReadsBackExactly` says an overlay reads back exactly without one.
- A cached certificate entry that lacks only its generated header passes the bundle's check and fails
  the case's; the case then gets a new authority that is not in the bundle
  (`TrustBundle.MissingHeaderMisleads`). Without universal KEM only the first case of each algorithm
  is covered. `TrustBundle.TrustedIsServed` is the exact condition.
- Resets while the retained memory is being cleared and in the boot that follows can make the
  firmware resume at the last attempt instead of the first: exactly as long as the word with the next
  index has not been written since clearing began (`Reboot.FirstAfterClear`;
  `Reboot.HalfClearedMemoryResumes` is an input). After BENCH_DONE this cannot happen.
- A write that times out reports an error even when bytes went out; a fatal error or an empty send
  reports the bytes instead (`NetWrite.ShortCountMeansFailure`).
- With no configured try, which the configuration allows, the retry loop returns an error and leaves
  the metrics as they were; that the status and error_code columns agree, whatever the metrics held,
  is true exactly when a try is configured (`AttemptEngine.StatusAgreesExactly`).

## Model

| member | source | states |
|---|---|---|
| SessionPlan.AttemptBatches | benchmarking/run_benchmarks.py:1313-1326 | the loop terminates and yields the plan `Batches` about which the next three rows speak |
| SessionPlan.BatchesKeepLabels | benchmarking/run_benchmarks.py:1313-1326 | for every limit and sign of the counts, the warm-up flags of the sessions, one after another, are those of the uncut case |
| SessionPlan.BatchesConserve | benchmarking/run_benchmarks.py:1313-1326 | the sessions' warm-ups and iterations sum to the case's, if and only if a split plan has no negative count |
| SessionPlan.BatchesFillTheLimit | benchmarking/run_benchmarks.py:1313-1326 | a case beyond a positive limit is split: every session is non-empty and at most the limit, all but the last equal it, no measured attempt precedes a warm-up; any other case is left whole |
| Ledger.LedgerIsGapFree | benchmarking/run_benchmarks.py:1647-1654 | for every schedule and every mix of full, short, empty and raising sessions a case's rows are numbered 1, 2, 3, ... |
| Ledger.LedgerCarriesRows | benchmarking/run_benchmarks.py:1348-1363 | indices aside a ledger is, session by session, the rows returned in order with their first ones flagged, one timeout row for a session without rows, one error row with its message for a raising one |
| Ledger.PlanOrderLabelling | benchmarking/run_benchmarks.py:1329-1363 | complete sessions in plan order: per-session labelling, running-index labelling and labelling of one uncut session agree row by row |
| Ledger.CollectCaseSessions | benchmarking/run_benchmarks.py:1723-1770 | the session loop of run_case keeps every row, adds a timeout row for an empty session, numbers them 1, 2, 3, ... and flags the first total_warmups |
| Schedule.PlanSessions | benchmarking/run_benchmarks.py:1545-1560 | the nested loops yield the plan `PlanJobs` of the next row |
| Schedule.PlannedExactly | benchmarking/run_benchmarks.py:1545-1560 | a job is planned if and only if it is some batch of some case in some round 1..sessions_per_case, with those numbers, and there are as many jobs as that makes |
| Schedule.Shuffle | benchmarking/run_benchmarks.py:1561 | any choice of exchanges permutes the jobs |
| Schedule.NumberSessions | benchmarking/run_benchmarks.py:1562-1563 | renumbering sets 1..n and changes nothing else |
| Schedule.BuildSessionSchedule | benchmarking/run_benchmarks.py:1540-1564 | the schedule holds exactly the planned jobs, numbered 1..n in their shuffled order |
| Schedule.CompleteRunCounts | benchmarking/run_benchmarks.py:1629-1654 | complete sessions: N = sessions_per_case * (warmups + iterations) rows if and only if that sum is positive, exactly sessions_per_case * warmups of them warm-ups |
| Schedule.ShuffleDoesNotShow | benchmarking/run_benchmarks.py:1540-1564 | if a session's outcome depends only on its job, any two orders of the same sessions give every case the same summary |
| Sequences.SortShape | benchmarking/run_benchmarks.py:636 | sorting orders its input and keeps every element |
| Summary.SummaryOfContents | benchmarking/run_benchmarks.py:610-693 | every figure of a summary depends only on the multiset of row contents, not on order, index or message |
| Summary.VerdictMeans | benchmarking/run_benchmarks.py:640-642 | each verdict if and only if the measured rows hold, or lack, a success, an error, a timeout, an unsupported row |
| Summary.LostSessionsInSummary | benchmarking/run_benchmarks.py:1629-1654 | a raising session adds one failure; a silent one adds a timeout if and only if it had no warm-ups |
| Summary.RanksMean | benchmarking/run_benchmarks.py:670-674 | the extremes occur and bound every value and the mean; p95 and median have their ranks, for odd and for even counts |
| Summary.MomentsMean | benchmarking/run_benchmarks.py:644-676 | deviations from the mean cancel, which determines it; the variance spreads the squared ones over n - 1; rate times mean is 1000; the count is the number of values |
| Summary.BalanceIsUnique | benchmarking/run_benchmarks.py:644 | only one number balances the values |
| Summary.SummarizesColumns | benchmarking/run_benchmarks.py:617-632 | each of the nine columns aggregates the values of the successful rows that are no warm-ups and have one |
| Summary.OneMoreRow | benchmarking/run_benchmarks.py:611-615 | what one more row adds to each count: nothing if it is a warm-up |
| Summary.P95IsOrderStatistic | benchmarking/run_benchmarks.py:633-638 | p95 has rank floor(0.95 * (n - 1)), counted without sorting |
| Summary.MedianIsCentral | benchmarking/run_benchmarks.py:671 | the median has the central rank, or lies midway between the two central ones |
| Summary.EveryMeasuredRowCounted | benchmarking/run_benchmarks.py:611-615 | every measured row is counted under exactly one status and no warm-up is |
| CaseSession.EveryOutcomeOccurs | benchmarking/run_benchmarks.py:1389-1445 | every outcome the statements about schedules range over comes of some step of a session raising, or none |
| CaseSession.OutcomeMeans | benchmarking/run_benchmarks.py:1409-1445 | rows survive if and only if no step and no clean-up raises; a raising clean-up has the last word unless there was nothing to clean up |
| CaseSession.FateMeans | benchmarking/run_benchmarks.py:1415-1425 | which steps leave the old image, which no whole one, and that all later ones leave the session's own |
| Runner.BenchmarkRun.FlashFirmware | benchmarking/run_benchmarks.py:1062-1117 | flashing that raises leaves the old image or no whole one, depending on the step; else the board holds the new image |
| Runner.BenchmarkRun.RunCaseSession | benchmarking/run_benchmarks.py:1389-1445 | whichever step raises, or the clean-up after it: the rows survive only if neither does, and the board holds the old image, none, or the session's own, as the outcome's fate says |
| Runner.BenchmarkRun.RunScheduledSession | benchmarking/run_benchmarks.py:1597-1654 | a returning session appends its renumbered rows and records the key it flashed; a raising one changes neither ledger nor record |
| Runner.BenchmarkRun.RunOrRecordFailure | benchmarking/run_benchmarks.py:1958-1980 | a raising session becomes one error row with the next free index |
| Runner.BenchmarkRun.RunTurn | benchmarking/run_benchmarks.py:1958-1980 | one session advances its own ledger and the flash memory by one step and no other ledger |
| Runner.BenchmarkRun.RunSchedule | benchmarking/run_benchmarks.py:1958-1980 | after any schedule each ledger holds what its sessions left behind, next_attempt_index is one past it, and the flash record has followed every session |
| Runner.BenchmarkRun.RunShuffled | benchmarking/run_benchmarks.py:1954-1980 | for every seed each case ends gap-free and with the summary the unshuffled plan gives |
| FlashCache.RecordIsWrongExactly | benchmarking/run_benchmarks.py:1611-1628 | the record differs from the board if and only if some session raised after touching a board with a key on record and none since has reflashed |
| FlashCache.WrongImageExactly | benchmarking/run_benchmarks.py:1611-1628 | a returned session ran on another case's image if and only if the stale key on record was its own |
| FlashCache.CarefulRunsAreSound | benchmarking/run_benchmarks.py:1611-1628 | if no session raises after touching the board, the record is always true and every returned session ran on its own firmware |
| FlashCache.RaiseAfterFlashMisleads | benchmarking/run_benchmarks.py:1627-1628 | a schedule of three sessions whose last runs on the wrong firmware |
| FlashCache.FlashCount | benchmarking/run_benchmarks.py:1611-1628 | flashes = maximal equal-key runs among returned sessions + sessions that raised after touching the board |
| FlashCache.FlashesAreKeyRuns | benchmarking/run_benchmarks.py:1611-1628 | when every session returns, flashes = maximal equal-key runs of the schedule |
| FlashCache.SkipFlashTouchesNothing | benchmarking/run_benchmarks.py:1611-1614 | with --skip-flash no session touches the board or the record |
| Firmware.FirmwareServesSessions | benchmarking/run_benchmarks.py:1494-1505 | the firmware makes as many attempts as any session of its case waits for, exactly as many as each but the last of a split case |
| Firmware.PrepareBuilds | benchmarking/run_benchmarks.py:1509-1526 | every case's firmware is built or found, and the cache stays sound |
| Firmware.ReturnedRanFreshBuild | benchmarking/run_benchmarks.py:1509-1628 | a returned session was measured on the image a fresh build of its case gives, unless the key on record was its own and stale |
| Firmware.CarefulRunsMeasureTheirCase | benchmarking/run_benchmarks.py:1509-1628 | so was every returned session if none raises after touching the board |
| Slugs.SlugsAgree | benchmarking/generate_cases.py:88-89 | the generator's slug and the runner's slug are the same function |
| Slugs.SlugIsClean | benchmarking/run_benchmarks.py:507-508 | a slug holds only [a-z0-9_], no double underscore and none at either end |
| Slugs.SlugIsWords | benchmarking/run_benchmarks.py:507-508 | for every text the slug is its maximal runs of letters and digits, lower-cased and joined by single underscores |
| Slugs.JoinDecodes | benchmarking/run_benchmarks.py:546-568 | a part without double or final underscore can be read back from a join with "__" |
| Slugs.SimpleSlug | benchmarking/run_benchmarks.py:507-508 | on names of letters, digits and single hyphens a slug only lower-cases and replaces hyphens |
| BuildCache.GeneratedCaseIsAdmissible | benchmarking/generate_cases.py:92-118 | every generated case of a supported group meets the conditions of the cache theorems |
| BuildCache.GroupFromSlug | benchmarking/run_benchmarks.py:937-949 | the supported groups can be read back from their slugs |
| BuildCache.KeyTextDecodes | benchmarking/run_benchmarks.py:546-566 | group, certificate, iteration and warm-up parts can be read back from a joined key whose varying parts are clean |
| BuildCache.FullKeyDecodes | benchmarking/run_benchmarks.py:540-566 | a full profile key determines the group part, the certificate part, the iterations and the warm-ups |
| BuildCache.FixedPartsDecode | benchmarking/run_benchmarks.py:552-563 | the rest of the key tells apart any two settings of the twelve arguments it is made from |
| Overlay.OverlayReadsBackExactly | benchmarking/run_benchmarks.py:976-1000 | reading the overlay line by line gives each symbol the case's or argument's own value (forced counts where split), exactly one TLS group that spells the case's, and the ML-KEM backend, if and only if the count texts are of one line |
| Overlay.SuffixSpells | benchmarking/run_benchmarks.py:935-945 | every group symbol spells its group's name in capitals, separators aside |
| Overlay.MlkemGroupsAreNamed | benchmarking/run_benchmarks.py:948-955 | the ML-KEM groups are the supported ones whose name says so |
| BuildCache.EqualKeysEqualImages | benchmarking/run_benchmarks.py:533-568 | equal profile keys within a run mean equal overlay text and equal trust header |
| BuildCache.KeysDetermineImages | benchmarking/run_benchmarks.py:1509-1526 | the same over all profiles of a run, given that their digests do not collide |
| BuildCache.BuildCache.Provide | benchmarking/run_benchmarks.py:1509-1526 | a cached build is the one a fresh build would give, its overlay reads back as the case's settings, its header is the bundle or the one cached for the case, and the cache stays so |
| TrustBundle.CertificateStore.GenerateInto | benchmarking/run_benchmarks.py:782-822 | generation and caching replace the whole entry by one new authority's |
| TrustBundle.CertificateStore.EnsureBundleEntries | benchmarking/run_benchmarks.py:834-866 | succeeds if and only if every first case of an algorithm has a reusable entry, or one already asked for, or a supported algorithm; then every bundle entry is reusable, reusable ones are kept, other entries are untouched |
| TrustBundle.CertificateStore.PrepareBundle | benchmarking/run_benchmarks.py:857-882 | succeeds under the same condition; the bundle is then exactly the authorities of the bundle entries, and exactly the trusted entries restore to one of them |
| TrustBundle.CertificateStore.PrepareCase | benchmarking/run_benchmarks.py:1470-1486 | restore, refuse under --skip-flash, or generate anew |
| TrustBundle.CertificateStore.PrepareRun | benchmarking/run_benchmarks.py:857-890 | when the preparation succeeds, what the bundle holds, which cases are served a certificate, and which of those one from the bundle |
| TrustBundle.TrustedIsServed | benchmarking/run_benchmarks.py:857-890 | a case is served a certificate from the bundle if and only if the bundle was made from its entry and that entry did not start out lacking only its header |
| TrustBundle.ServedForItsAlgorithm | benchmarking/run_benchmarks.py:519-530 | whatever certificate a generated case is served was made for an algorithm with the case's slug |
| TrustBundle.KeysNameAlgorithms | benchmarking/run_benchmarks.py:519-522 | every case is cached under a key that names its algorithm |
| TrustBundle.UniversalKemCovers | benchmarking/run_benchmarks.py:519-530 | with universal KEM every case is served a trusted certificate if and only if its entry did not start out lacking only its header, with or without --skip-flash |
| TrustBundle.PerCaseKeysCoverFirstOnly | benchmarking/run_benchmarks.py:861-866 | without universal KEM exactly the first case of each algorithm is, under the same condition |
| TrustBundle.MissingHeaderMisleads | benchmarking/run_benchmarks.py:803-831 | one cached entry without its header: the bundle trusts its old authority and the case is served the new one's certificate |
| CertHeader.WriteDerArray | benchmarking/host/gen_benchmark_certs.py:134-143 | the offset loop prints `ArrayText` |
| CertHeader.ArrayRoundTrip | benchmarking/host/gen_benchmark_certs.py:136-142 | every non-empty DER string reads back byte for byte, with exactly len - 1 commas across line breaks |
| BundleHeader.WriteSingleHeader | benchmarking/host/gen_benchmark_certs.py:146-162 | the single-CA header is the one-entry bundle named "default" and reads back as that entry |
| BundleHeader.WriteBundleHeader | benchmarking/run_benchmarks.py:751-779 | the loops print a header that reads back as the list of CAs |
| BundleHeader.HeaderReadsBack | benchmarking/run_benchmarks.py:751-779 | for every list of non-empty CAs with names free of quotes and line ends: a line reader finds their arrays in order and byte for byte, a table that pairs each array with its own size and its CA's name, and a count equal to their number |
| BundleHeader.ArrayNamesDiffer | benchmarking/run_benchmarks.py:764 | no two arrays share a name |
| Reboot.Board.StartAttempt | benchmarking/firmware/src/main.c:342-358 | the retained index if the memory is usable for this total, else 1, and the memory then says so |
| Reboot.Board.StoreNextAttempt | benchmarking/firmware/src/main.c:360-374 | stores the next index, or clears the memory past the last |
| Reboot.Board.BootOnce | benchmarking/firmware/src/main.c:1003-1059 | one boot prints one attempt and reboots, or all of them; what is left is what the next boots print |
| Reboot.Board.RunToDone | benchmarking/firmware/src/main.c:1003-1059 | with no stray reset every attempt from the retained index on is printed once, in order, and the memory ends cleared |
| Reboot.LinesAreAllAttempts | benchmarking/firmware/src/main.c:1009-1010 | those lines are the consecutive indices, flagged warm-up exactly up to the warm-up count |
| Reboot.StepsRefineCalls | benchmarking/firmware/src/main.c:342-374 | the word-by-word steps without a reset compute what the two calls do |
| Reboot.RunKeepsInvariant | benchmarking/firmware/src/main.c:342-374 | the memory and phase invariant holds from any retained memory under any placing of resets |
| Reboot.NumberingSurvivesResets | benchmarking/firmware/src/main.c:1003-1059 | indices stay in 1..total; until cleared an index repeats if and only if a reset fell between its print and its store, else it is one more; after BENCH_DONE it is 1 |
| Reboot.PrintedIndexExactly | benchmarking/firmware/src/main.c:342-374 | from any memory under any resets a printed index is the one due after the last print; with none since clearing began or power-on it is 1 if `next` was written since, else what `next` holds: the last index after clearing began |
| Reboot.FirstAfterClear | benchmarking/firmware/src/main.c:366-368 | the first index after clearing began is 1 if and only if `next` has been written since or there is but one attempt, and otherwise the last |
| Reboot.HalfClearedMemoryResumes | benchmarking/firmware/src/main.c:366-368 | an input for the other case: two resets and the firmware takes up the last attempt again |
| AttemptEngine.Client.NetConnect | benchmarking/firmware/src/main.c:452-506 | what a connect call leaves in the two timing globals |
| AttemptEngine.Client.ConnectTls | benchmarking/firmware/src/main.c:733-778 | the TLS connect loop succeeds, fails or times out with the metrics `NetRun` prescribes |
| AttemptEngine.Client.RunOneAttempt | benchmarking/firmware/src/main.c:840-878 | a try reports what its environment alone determines, and success if and only if every step succeeds; no timing leaks from an earlier try |
| AttemptEngine.TryReturnsFirstFailure | benchmarking/firmware/src/main.c:733-878 | the code of a try is the first that is not success among initialisation, the call that ends the connect loop (a timeout if time ran out), connect, subscribe and publish |
| AttemptEngine.SucceedsExactly | benchmarking/firmware/src/main.c:814-878 | a try succeeds if and only if each of these does |
| AttemptEngine.Client.RunWithRetries | benchmarking/firmware/src/main.c:880-919 | success if and only if some configured try succeeds, stopping at the first; otherwise reports the last try, unless only earlier ones had a TLS error, then the first of those; does nothing without a configured try |
| AttemptEngine.FailureCarriesItsCode | benchmarking/firmware/src/main.c:840-878 | the returned code and the recorded error_code agree on every path |
| AttemptEngine.StatusAgreesWithErrorCode | benchmarking/firmware/src/main.c:1026-1036 | with a try configured every printed status follows from the printed error_code |
| AttemptEngine.StatusAgreesExactly | benchmarking/firmware/src/main.c:886-919 | the two agree whatever the caller's metrics held if and only if a try is configured |
| AttemptEngine.NetRunInClosedForm | benchmarking/firmware/src/main.c:739-771 | the loop makes calls up to the first decisive one or the first that ends past the deadline; time is the sum of theirs; the recorded TCP and setup times are the last ones |
| AttemptEngine.IntervalsFit | benchmarking/firmware/src/main.c:739-771 | the last TCP connect and TLS setup are disjoint parts of the elapsed time, over any number of reconnects |
| AttemptEngine.PhasesAddUp | benchmarking/firmware/src/main.c:745-755 | on success tcp + setup + raw = NetConnect time, no clamp binds, and with MQTT they fit in the full time |
| AttemptLine.ReadRowIsConsistent | benchmarking/firmware/src/main.c:1009-1045 | a line printed after any tries and read back by the host has the status its error_code column calls for, success if and only if some try succeeded; its time columns then fit together |
| NetWrite.Socket.Send | benchmarking/firmware/src/main.c:554-555 | one send: the stack accepts a prefix of what it is offered, or fails |
| NetWrite.ChunkedWrite | benchmarking/firmware/src/main.c:540-586 | the bytes on the wire are exactly buf[..total], every send offers 1 to chunk bytes, and the result is what `Drive` prescribes |
| NetWrite.DriveOutcome | benchmarking/firmware/src/main.c:552-583 | why the loop stopped, and that it consults the stack at most once per byte and millisecond left, plus one |
| NetWrite.ShortCountMeansFailure | benchmarking/firmware/src/main.c:557-585 | a count equals the length if and only if all went out; a shorter positive one means a fatal error or empty send after progress; every timeout is an error |
| NetWrite.SingleWrite | firmware/src/main.c:365-397 | one send of at most 64 bytes: the accepted count, a timeout exactly for a timeout error, else a network error |
| NetWrite.WriteInSingles | firmware/src/main.c:365-397 | a caller that goes on from the returned offset has exactly the bytes before its offset on the wire and ends where `Singles` says |
| NetWrite.SinglesInClosedForm | firmware/src/main.c:365-397 | it gets everything the stack takes up to the first failure, empty send or timeout too many, or the whole buffer |
| NetWrite.SinglesFinish | firmware/src/main.c:365-397 | it writes everything if no such answer comes |
| Allocator.PeakIsMaximum | benchmarking/firmware/src/main.c:230-232 | the recorded peak is a level that occurred and no level exceeds it |
| Allocator.TotalRemove | benchmarking/firmware/src/main.c:249-250 | the sum of live block sizes loses exactly a removed block's size |
| Allocator.TotalInsert | benchmarking/firmware/src/main.c:227-229 | and gains exactly a new block's size |
| Allocator.WolfsslHeap.XMalloc | benchmarking/firmware/src/main.c:206-235 | total = sum of live sizes and max = peak since reset are kept; zero becomes one; refusal only counts a failure |
| Allocator.WolfsslHeap.XFree | benchmarking/firmware/src/main.c:237-254 | removes the block and its size; NULL is ignored |
| Allocator.WolfsslHeap.XRealloc | benchmarking/firmware/src/main.c:256-287 | keeps the first min(old, new) bytes, passes through old + new, and on failure leaves block, total and history intact |
| Allocator.WolfsslHeap.ResetStats | benchmarking/firmware/src/main.c:392-395 | the peak restarts at the current total, failures at zero |
| Allocator.WolfsslHeap.PerformAll | benchmarking/firmware/src/main.c:206-287 | over any sequence of operations the total is the sum of the live blocks, and the maximum is the peak of all such sums since the last reset, those inside a realloc included |
| Allocator.PeakCoversRun | benchmarking/firmware/src/main.c:230-232 | at no moment since the last reset did the live blocks hold more than the recorded peak |
| MlkemBackend.MakeKey | benchmarking/firmware/src/pqm4_mlkem_backend.c:115-153 | every path returns the total and the live blocks to their entry value, raises the peak to exactly what it held at once, wipes what it frees, and returns the first failing step's code |
| MlkemBackend.Encapsulate | benchmarking/firmware/src/pqm4_mlkem_backend.c:155-188 | the same for encapsulation, with its argument checks |
| MlkemBackend.Decapsulate | benchmarking/firmware/src/pqm4_mlkem_backend.c:190-218 | the same for decapsulation |
| Text.SplitJoin | benchmarking/run_benchmarks.py:711 | splitting a join gives the fields back when none holds the separator |
| Text.JoinSplit | benchmarking/run_benchmarks.py:711 | joining a split gives any text back |
| Text.StripMeans | benchmarking/run_benchmarks.py:705 | stripping takes whitespace off both ends and nothing else |
| Text.ReadDecimal | benchmarking/firmware/src/main.c:1026-1045 | a printed integer reads back as itself |
| SerialLine.MessageFits | benchmarking/firmware/src/main.c:1011-1024 | the message buffer never truncates, for all 32-bit values |
| SerialLine.MatchEndIsPattern | benchmarking/run_benchmarks.py:707 | the search's match is exactly the regular expression's language |
| SerialLine.MarkerIsFirst | benchmarking/run_benchmarks.py:703-705 | a marker-free prefix leaves the printed marker the first one |
| SerialLine.RoundTrip | benchmarking/run_benchmarks.py:696-733 | parsing any printed record returns its eighteen columns, after any marker-free prefix and before any whitespace |
| SerialLine.AnyLineParses | benchmarking/run_benchmarks.py:696-733 | any line with the marker, of older firmware too, gives a row with its fields if there are at least nine and the third is a known status, otherwise none |
| SerialLine.ColumnsDetermineNumbers | benchmarking/firmware/src/main.c:1026-1045 | each column holds its own field of the record, the eight resource columns and the status included |
| SerialLine.MessageNamesNumbers | benchmarking/firmware/src/main.c:1011-1024 | the message names both phases of a success and the TLS error of a failure, and its numbers read back |
| SerialLine.OneByteLoss | benchmarking/run_benchmarks.py:696-710 | after losing one marker byte the record is read in full if and only if the byte is at 1-5 or 9-12, otherwise no record |
| Keepalive.GoodMeans | firmware/src/main.c:727-745 | a packet sequence the loop can build holds no ping, starts less than 16.6 s apart, and telemetry starts 10 to 16.6 s after the one before it finished |
| Keepalive.KeepsAlive | firmware/src/main.c:698-749 | after any number of turns of any environment: idle time below 11.6 s, packets of that kind, silence under the 30 s keep-alive, every telemetry tried counted |
| Keepalive.RunAnswersPings | firmware/src/main.c:702-745 | while the connection is open the pongs sent are those owed, one for every turn that read a command or found one pending at the start, each right after that turn's poll and wait; none is pending between turns; each further turn does exactly what its environment asks, closing when a call fails |
| Keepalive.RunConnection | firmware/src/main.c:698-749 | the loop sends the packets `Run` prescribes for its environment, leaving when a call fails; while open it has answered every command |
| PlotData.LoadFromAttempts | graphic/plot_tls_handshake_bars.py:76-102 | the directory loop selects successful measured numeric rows |
| PlotData.CaseIdRecovered | graphic/plot_tls_handshake_bars.py:95 | the case id is recovered from the directory name, underscores included |
| PlotData.PaddedReads | benchmarking/run_benchmarks.py:484-495 | the number at the head of a directory name has at least three digits and reads back |
| PlotData.SameRow | graphic/plot_tls_handshake_bars.py:81-101 | what the fallback reads from a case's file is the row the summary of its ledger gives, or none where that has no mean |
| PlotData.FallbackAgrees | graphic/plot_tls_handshake_bars.py:68-109 | the fallback and the summaries of the ledgers yield the same multiset of rows, whatever the directory order |
| PlotData.ShuffledRunsPlotAlike | graphic/plot_tls_handshake_bars.py:76-109 | two runs of the same plans under different shuffles yield the same rows |

## Left out

- Docker, flashing tools, serial devices, BLE callbacks, LED commands, logging and argument parsing: plumbing around the logic modelled here.
- wolfSSL, wolfMQTT, Zephyr and the KEM primitives: their return values, durations and writes are environment choices.
- Cases known to be unsupported and dry runs: they return before certificates, builds or sessions.
- The serial reader thread: a session's rows arrive with what happens in it, of any number.
- Wording of host-made messages and the prepare-time error rows: one fixed text stands for each, since no figure depends on it.
- The placeholder row for a case without any session: no such case exists, as a plan has at least one session and `--sessions-per-case` is at least 1.
- Floating-point rounding and the printed three decimals: aggregates are exact reals, the standard deviation appears squared, and the p95 position is floor(19 * (n - 1) / 20).
- Width of millisecond counters: durations are unbounded integers, as every timeout is far below 2^31 ms.
- CPU, cycle and system-heap columns: straight copies of platform counters; the mean CPU share stays in hundredths of a percent.
- `net_read`, certificate generation commands, the static KEM and signature tables, and `level_from_key`: straight-line code or finite data.
- Non-ASCII case folding in `slug`: only A-Z are lowered.
- Order of word writes in the retained memory: program order, one word at a time.
- Allocator.WolfsslHeap.XMalloc: does not model a request whose size plus header exceeds 32 bits, and pointers are never stale.
- Slugs.SimpleSlug: covers names of the supported shape only; other names may share a slug, and then share cached certificates.
- BuildCache.EqualKeysEqualImages: assumes the twelve-digit digests of a run's keys do not collide, and cases written by the generator for supported groups.
- AttemptEngine.Client.ConnectTls: assumes a connect call after which the loop tries again takes at least one millisecond, without which the loop need not end.
- NetWrite.ChunkedWrite: assumes the pause after a transient error takes at least one millisecond, for the same reason.
- Keepalive.RunConnection: assumes calls take at most their configured timeouts and statements between them no time.
- PlotData.FallbackAgrees: a measured success with a handshake column that is neither empty nor a number is not covered, as the summary then raises; `success_count` is not compared.
- BundleHeader.HeaderReadsBack: names with quotes or line ends and empty certificates are not covered; algorithm names and certificates are neither.
- MlkemBackend.MakeKey, Encapsulate, Decapsulate: assume that the primitives and the key codec leave the wolfSSL heap as they found it.
- TrustBundle.CertificateStore.PrepareRun: models runs with the universal CA bundle; without it every case trusts the header cached with its own certificates.
