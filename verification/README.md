# Music AI: verified models

Dafny models of the parts of Music AI whose correctness is hardest to see from any one function, with proofs. Verify everything with `dafny verify dfyconfig.toml`.

| files | what they model |
|---|---|
| `Matching`, `Wilson` | evaluation of predicted corrections: maximum one-to-one matching by augmenting paths, overlap ratio, Wilson interval |
| `ScoreContracts`, `ScoreFrames`, `ScorePhrase`, `Stats`, `Detrend`, `Reals` | scoring a phrase, from frames to a score that meets its contract |
| `ScoreWitnesses` | valid input on which scoring fails |
| `Calibration`, `CalibratePhrase` | placing a phrase on the song's timeline from transport evidence, and the frames built on it |
| `Gate` | the ingest gate, tied to the scorer's own filter |
| `ControlPlane`, `ControlPlaneInvariant`, `ControlPlaneDeletion`, `ControlPlaneTheorems`, `ControlPlaneRuns`, `ControlPlaneAudio`, `ControlPlaneMaintenance` | the control plane as a state machine over its rows and the object store, and what every run keeps |
| `ControlPlaneWitnesses` | runs from the empty database that show where the service falls short |
| `ControlPlaneService` | the service as a class that updates those rows in place |
| `LocalStore` | concurrent writers to the object store on a file system |
| `Bytes`, `OggCrc`, `OggPages`, `OggStream`, `OggTheorems` | the Ogg Vorbis validator (RFC 3533, sections 5 and 6; Vorbis I, section 4.2) |
| `Qmc2`, `SecureIo` | the two stream ciphers, in place on buffers, and the loop that drives them over a file |
| `Coach` | choosing and checking practice exercises, whatever a provider answers |
| `RateLimit` | the fixed-window limiter |

How it is modelled:

- Code that updates fields, dictionaries or buffers step by step is a class or a method with the same loops and branches, proved equal to a specification function; the theorems are about those functions, over all inputs, all reachable states or all runs.
- Floating-point numbers are reals and rounding is written out (half to even, and to six decimals). Integers are unbounded except in the CRC, which is 32 bits, and the ciphers, which work on bytes.
- A digest is the content it digests, and a derived identifier is what it is derived from. Server-drawn identifiers are numbers never used before. Clocks, object-store failures, commit failures, read sizes, provider answers, logarithms, square roots and the ciphers' segment keys are parameters that may be anything of their type.
- Each operation of the control plane is one atomic database step whose effect on the object store comes first and survives a rollback; a deletion pass may also be cut short after any of its deletes.

What the proofs brought to light, each proved with the exact condition or a concrete input:

- A client that reuses the identifier of a purged phrase gets a phrase that never expires: expiry skips a phrase exactly when a deletion request for its identifier exists (`ControlPlaneRuns.ExpirySkipsExactlyReused`), and no later run without a deletion of its song erases it (`ControlPlaneWitnesses.ReusedNeverExpires`, and from the empty database `ControlPlaneWitnesses.ReusedNeverExpiresInARun`). With fresh identifiers expiry is complete (`ControlPlaneMaintenance.MaintenanceErasesExpired`).
- A song's deletion can complete while audio of one of its phrases is still stored, because the request lists only keys its rows still hold. It never does if and only if, when the deletion is requested, all stored audio of the song's phrases is on their rows (`ControlPlaneAudio.DeletionErasesAudioExactly`); `ControlPlaneWitnesses.AudioOutlivesItsSongInARun` is a run in which it does. That audio is still held by the phrase's own expiry (`ControlPlaneTheorems.CompletedMeansGone`).
- A decryption key of 301 to 511 bytes makes the helper panic exactly on files longer than 5,120 bytes for each byte of key, when the reads deliver them whole (`SecureIo.DecryptAuthorized`).
- The scorer can raise on valid input, exactly when a judged phrase has more than 10,000 corrections (`ScorePhrase.ScoreIsValid`): 10,001 missed notes do it (`ScoreWitnesses.MissedNotesFail`). Up to 2,500 selected regions it never does, and for 2,501 it can (`ScoreWitnesses.FourEachFail`).
- A positive reference pitch that rounds to zero at six decimals makes the ingest frame invalid (`Gate.NormalizedFrame`).
- The byte scrambling that the ciphers' source calls a bit rotation is one exactly at every fourth key index (`Qmc2.ScrambleIsRotation`); the model follows the code.
- Checks that never act: the two clamps of the Wilson interval, the object store's refusal, replays of deleted scores and phrases, the length check after validation.

## Model

| member | source | states |
|---|---|---|
| `Matching.EvaluateCorrections` | packages/scoring-core/src/music_ai_scoring/evaluation.py:39-136 | for any predictions and labels, `true_positives` is the size of a largest one-to-one pairing of equal kinds overlapping by at least the threshold; the other counts complement it, the severe misses are those of the labels such a pairing leaves over, every ratio is the quotient it is named for and lies in [0,1], and the Wilson bounds are always computed; bad counts and bad thresholds are exactly the refusals |
| `Matching.MatchAll` | packages/scoring-core/src/music_ai_scoring/evaluation.py:76-107 | trying every prediction in turn gives a maximum matching with mutually inverse dictionaries, certified by a ghost set whose deficiency equals the number of predictions left over |
| `Matching.Matcher.Assign` | packages/scoring-core/src/music_ai_scoring/evaluation.py:79-104 | one augmenting search keeps both dictionaries inverse and inside the adjacency, unmatches nothing, adds exactly one prediction and one label when it returns true, changes nothing when it returns false, and terminates |
| `Matching.Matcher.Search` | packages/scoring-core/src/music_ai_scoring/evaluation.py:80-94 | the breadth-first loop terminates, and either reaches a free label along parents of strictly decreasing depth or has explored everything reachable and found it all matched back into what it saw |
| `Matching.Matcher.Flip` | packages/scoring-core/src/music_ai_scoring/evaluation.py:96-102 | walking back along the parents terminates, leaves a valid matching, and adds exactly the starting prediction and the free label |
| `Matching.ClosedSetCertifiesMaximum` | packages/scoring-core/src/music_ai_scoring/evaluation.py:76-107 | if every prediction is matched or in a set whose neighbours are all matched back into the set, no matching of any kind is larger |
| `Matching.ClosedSetDeficiency` | packages/scoring-core/src/music_ai_scoring/evaluation.py:76-107 | such a set has exactly as many fewer neighbours than members as there are unmatched predictions |
| `Matching.SortedOrder` | packages/scoring-core/src/music_ai_scoring/evaluation.py:52-60 | ordering by key is a permutation of the input that is sorted, so no prediction is lost or repeated |
| `Matching.Row` | packages/scoring-core/src/music_ai_scoring/evaluation.py:62-74 | a prediction's adjacency row holds a label exactly when kinds agree and the overlap reaches the threshold |
| `Matching.BuildAdjacency` | packages/scoring-core/src/music_ai_scoring/evaluation.py:61-74 | the loop builds exactly one such row for every ordered prediction |
| `Matching.IouIsJaccard` | packages/scoring-core/src/music_ai_scoring/evaluation.py:159-162 | on non-empty ranges the ratio equals shared samples over samples in either, also when the ranges are disjoint and the hull is used as union; it is 1 exactly for equal ranges |
| `Matching.OrderDoesNotMatter` | packages/scoring-core/src/music_ai_scoring/evaluation.py:52-110 | the size of a largest pairing is the same for every permutation of predictions and of labels |
| `Matching.TighterThreshold` | packages/scoring-core/src/music_ai_scoring/evaluation.py:68-74 | raising the threshold never raises the number matched |
| `Matching.OneMorePrediction` | packages/scoring-core/src/music_ai_scoring/evaluation.py:106-110 | one more prediction raises the number matched by zero or one |
| `Matching.OneMoreLabel` | packages/scoring-core/src/music_ai_scoring/evaluation.py:106-110 | one more label raises the number matched by zero or one |
| `Wilson.IntervalContainsProportion` | packages/scoring-core/src/music_ai_scoring/evaluation.py:150-156 | low <= proportion <= high within [0,1] for all counts and positive quantiles, and neither clamp ever changes a bound |
| `Wilson.WilsonInterval` | packages/scoring-core/src/music_ai_scoring/evaluation.py:144-149 | bad counts and a non-positive quantile are refused, in that order, and nothing else is |
| `ScorePhrase.ScoreIsValid` | packages/scoring-core/src/music_ai_scoring/core.py:43-452 | for every valid manifest and features: an input error, an unaccepted gate or bad region identifiers give exactly their outcome; otherwise a score is returned whenever at most 2,500 regions are selected, every returned score satisfies the output contract, the scorer raises exactly when a judged phrase has more than 10,000 corrections, and an authoritative score has coverage in (0,1], at most four corrections a region, sorted and pairwise distinct in region and kind |
| `ScorePhrase.ComputeScore` | packages/scoring-core/src/music_ai_scoring/core.py:43-452 | the procedure, with its early returns, computes the scoring function the lemmas are about |
| `ScorePhrase.TallyRegions` | packages/scoring-core/src/music_ai_scoring/core.py:127-351 | the loop over regions, with all its accumulators, computes the tally of the selected regions |
| `ScorePhrase.AssessRegion` | packages/scoring-core/src/music_ai_scoring/core.py:143-351 | one region's branches compute its assessment |
| `ScoreWitnesses.MissedNotesFail` | packages/scoring-core/src/music_ai_scoring/core.py:172-206 | for every n, a valid song of n overlapping regions and a valid silent performance: one missed note each, and scoring fails exactly from n = 10,001 on |
| `ScoreWitnesses.FourEachFail` | packages/scoring-core/src/music_ai_scoring/core.py:208-351 | for every n, a valid song and performance that earn four corrections in each of n regions, off by an octave, late, short and unstable: scoring fails exactly from n = 2,501 on, so the bound of 2,500 regions cannot be raised |
| `ScorePhrase.ScoredRegions` | packages/scoring-core/src/music_ai_scoring/core.py:101-452 | given at least one selected region: what is returned is valid, a failure needs more than 2,500 regions, and a score is authoritative exactly when coverage, leakage and evidence suffice |
| `ScorePhrase.PitchFramesHavePitch` | packages/scoring-core/src/music_ai_scoring/core.py:210-228 | every frame a region's pitch is judged on has a pitch and enough confidence, so taking its error never meets a missing one |
| `ScorePhrase.AssessFine` | packages/scoring-core/src/music_ai_scoring/core.py:143-351 | a region never counts more voiced or pitch frames than are expected of it, its confidence is in [0,1], and it emits at most four valid corrections of pairwise different kinds |
| `ScorePhrase.TallyFine` | packages/scoring-core/src/music_ai_scoring/core.py:127-376 | over all regions: assessed samples never exceed the total, frame counts never exceed the expected count, stability and vibrato entries together equal the long tones, onset and duration entries agree and never exceed the resolved regions |
| `ScorePhrase.TallyDistinct` | packages/scoring-core/src/music_ai_scoring/core.py:595-659 | no two corrections of a phrase share region and kind, so no two share an identifier, and each belongs to a selected region |
| `ScorePhrase.SortKeeps` | packages/scoring-core/src/music_ai_scoring/core.py:436 | sorting the corrections keeps them pairwise distinct |
| `ScorePhrase.SortCorrections` | packages/scoring-core/src/music_ai_scoring/core.py:436 | the sorted corrections are ordered by start and kind and are a permutation of the unsorted ones |
| `ScorePhrase.CoverageBounded` | packages/scoring-core/src/music_ai_scoring/core.py:101-104 | the samples covered by features are between zero and the samples of the selected regions |
| `ScorePhrase.MetricsValid` | packages/scoring-core/src/music_ai_scoring/core.py:370-434 | every metric that is reported has confidence and coverage in [0,1] |
| `ScorePhrase.PitchKindIs` | packages/scoring-core/src/music_ai_scoring/core.py:581-592 | a pitch error is reported exactly when it reaches the tolerance, as an octave error exactly when it is near a non-zero whole number of octaves |
| `ScorePhrase.VibratoBounds` | packages/scoring-core/src/music_ai_scoring/core.py:761-783 | vibrato depth is never negative, and what is reported keeps the policy's rate and depth bounds after rounding |
| `ScorePhrase.ReferenceArtifactExists` | packages/scoring-core/src/music_ai_scoring/core.py:691-703 | a valid manifest always has the artifact its corrections cite |
| `ScoreFrames.RegionHoldsExpected` | packages/scoring-core/src/music_ai_scoring/core.py:143-153 | no region ever holds more feature frames than its length in hops, rounded up |
| `ScoreFrames.TimingFramesAre` | packages/scoring-core/src/music_ai_scoring/core.py:534-578 | timing frames are confident frames of the phrase, near the region's pitch, in order and a hop apart |
| `ScoreFrames.BestRun` | packages/scoring-core/src/music_ai_scoring/core.py:571-578 | the run that is kept is one of the runs and none outranks it |
| `ScoreFrames.ComputeTimingFrames` | packages/scoring-core/src/music_ai_scoring/core.py:534-578 | collecting, grouping into runs and ranking, loop by loop, computes the timing frames |
| `ScoreFrames.CollectCandidates` | packages/scoring-core/src/music_ai_scoring/core.py:540-559 | the nested loops collect exactly the frames in the search window that are confident, near the pitch and not another region's |
| `ScoreFrames.GroupRuns` | packages/scoring-core/src/music_ai_scoring/core.py:562-568 | the loop splits the candidates exactly at gaps longer than allowed |
| `Detrend.ResidualsOrthogonal` | packages/scoring-core/src/music_ai_scoring/core.py:747-758 | residuals sum to zero and are orthogonal to the centred index, for every input including constant and single values |
| `Detrend.ResidualsOrthogonalToIndex` | packages/scoring-core/src/music_ai_scoring/core.py:747-758 | residuals are orthogonal to the plain index |
| `Detrend.DetrendIsLeastSquares` | packages/scoring-core/src/music_ai_scoring/core.py:747-758 | no line leaves a smaller sum of squared residuals |
| `Detrend.DetrendIgnoresLines` | packages/scoring-core/src/music_ai_scoring/core.py:747-758 | adding any line to the input leaves the residuals unchanged |
| `Detrend.DenominatorPositive` | packages/scoring-core/src/music_ai_scoring/core.py:747-758 | the slope's denominator is positive whenever there are two values or more |
| `Stats.PercentileMonotone` | packages/scoring-core/src/music_ai_scoring/core.py:786-794 | a higher percentile never gives a smaller value |
| `Stats.PercentileWithin` | packages/scoring-core/src/music_ai_scoring/core.py:786-794 | a percentile stays within any bounds of its input |
| `Stats.PercentileExtremes` | packages/scoring-core/src/music_ai_scoring/core.py:786-794 | percentiles 0 and 1 are attained values that bound all others |
| `Stats.SortPermutes` | packages/scoring-core/src/music_ai_scoring/core.py:787 | the sorted values are the same values with the same multiplicities |
| `Stats.QuantizeUnit` | packages/scoring-core/src/music_ai_scoring/core.py:797-799 | rounding to six decimals keeps a value on its side of zero and of one |
| `ControlPlaneDeletion.NoOrphanedObject` | services/control-plane/src/music_ai_control_plane/service.py:126-246 | after any run of operations from the empty database, every key in the store is held by a song, asset or phrase row or by an unfinished deletion task, including after rollbacks and interrupted passes |
| `ControlPlaneDeletion.StepInv` | services/control-plane/src/music_ai_control_plane/service.py:78-882 | every operation, for any arguments, keeps the whole invariant: rows refer to rows of the same tenant and song, uniqueness constraints hold, deletions and tasks fit together, every stored object is held |
| `ControlPlaneDeletion.RunInv` | services/control-plane/src/music_ai_control_plane/service.py:78-882 | so does every run |
| `ControlPlaneDeletion.RequestSongDeletionInv` | services/control-plane/src/music_ai_control_plane/service.py:613-762 | requesting a deletion moves every key of the song's rows to tasks and keeps the invariant |
| `ControlPlaneDeletion.ExpireRawAudioInv` | services/control-plane/src/music_ai_control_plane/service.py:764-812 | expiry moves every expired phrase's key to a task and keeps the invariant |
| `ControlPlaneDeletion.ProcessDeletionsInv` | services/control-plane/src/music_ai_control_plane/service.py:814-882 | a deletion pass keeps the invariant whichever deletes raise and whether or not a raising delete removed the object |
| `ControlPlaneDeletion.ProcessInterruptedInv` | services/control-plane/src/music_ai_control_plane/service.py:814-850 | a pass that dies after any set of deletes, before its commit, keeps the invariant |
| `ControlPlaneInvariant.UploadSourceInv` | services/control-plane/src/music_ai_control_plane/service.py:126-165 | an upload whose commit fails after the object was stored keeps the invariant |
| `ControlPlaneInvariant.UploadPhraseInv` | services/control-plane/src/music_ai_control_plane/service.py:418-445 | likewise for phrase audio |
| `ControlPlaneInvariant.WriteScoreInv` | services/control-plane/src/music_ai_control_plane/service.py:450-539 | a score that is accepted is bound to live stored evidence and to rows that belong together |
| `ControlPlaneTheorems.CompletedMeansGone` | services/control-plane/src/music_ai_control_plane/service.py:852-882 | when a pass marks a song's deletion completed, no row of the song is left, no object of the song, its assets or its listed keys is stored, and phrase audio still stored is held by that phrase's own unfinished expiry |
| `ControlPlaneTheorems.DeletionErasesWhatItListed` | services/control-plane/src/music_ai_control_plane/service.py:613-882 | from the request, through any operations, to the completing pass: every key the song's rows held at request time is absent from the store and every row of the song is gone |
| `ControlPlaneTheorems.DeletedSongStaysClosed` | services/control-plane/src/music_ai_control_plane/service.py:613-762 | between request and completion no operation adds a row or a key to the song or revives it |
| `ControlPlaneTheorems.FinishedIsFinal` | services/control-plane/src/music_ai_control_plane/service.py:823-881 | completed and failed tasks and requests never change again, and none is forgotten |
| `ControlPlaneTheorems.RetriesAreBounded` | services/control-plane/src/music_ai_control_plane/service.py:823-850 | in any run a task is attempted at most as often as the retry limit; completed ones failed fewer times, failed ones exactly that often |
| `ControlPlaneTheorems.RunGone` | services/control-plane/src/music_ai_control_plane/service.py:814-882 | while a song's deletion is unfinished, keys whose deletes completed stay out of the store over every run |
| `ControlPlaneRuns.EveryDeletionSettles` | services/control-plane/src/music_ai_control_plane/service.py:814-882 | for any request present in a state of the invariant: after a run from it in which anything else may happen, but the tenant's passes number at least the retry limit, are spaced by the longest back-off and find the request's tasks due at the first, neither the request nor any of its tasks is pending, whatever the store does |
| `ControlPlaneRuns.TaskSettles` | services/control-plane/src/music_ai_control_plane/service.py:814-850 | the same of each single task, which needs only itself due at the first of those passes |
| `ControlPlaneMaintenance.WorkerSettles` | services/control-plane/src/music_ai_control_plane/maintenance.py:27-53 | the worker's own rounds, which expire audio before each pass and visit other tenants between, are such runs: as many rounds as the retry limit settle every request whose tasks were due at the first |
| `ControlPlaneRuns.PassesWear` | services/control-plane/src/music_ai_control_plane/service.py:823-850 | a task that is still pending after n spaced passes of its tenant, the first when it is due and anything at all between them, has been attempted at least n times; without such passes a run leaves it as it was |
| `ControlPlaneRuns.BackoffBound` | services/control-plane/src/music_ai_control_plane/service.py:843-848 | a back-off is between one second and the maximum for every number of attempts |
| `ControlPlaneRuns.RequestOutcomes` | services/control-plane/src/music_ai_control_plane/service.py:852-881 | in every reachable state a completed request has only completed tasks and a failed one has a failed task |
| `ControlPlaneRuns.ExpirySkipsExactlyReused` | services/control-plane/src/music_ai_control_plane/service.py:764-812 | an expired phrase survives an expiry pass if and only if its identifier already has a deletion request, which is how reusing a purged phrase's identifier defeats expiry |
| `ControlPlaneWitnesses.ReusedNeverExpires` | services/control-plane/src/music_ai_control_plane/service.py:764-812 | and from any state of the invariant, over every run that does not delete its song, such a phrase stays there unerased |
| `ControlPlaneWitnesses.ReusedNeverExpiresInARun` | services/control-plane/src/music_ai_control_plane/service.py:357-416 | a run from the empty database that reserves a phrase under a purged phrase's identifier; whatever follows, short of deleting its song, it is never erased, although it has an expiry time |
| `ControlPlaneRuns.RunFresh` | services/control-plane/src/music_ai_control_plane/service.py:357-416 | with identifiers that are never reused, in every run no unerased phrase has a deletion request |
| `ControlPlaneMaintenance.MaintenanceErasesExpired` | services/control-plane/src/music_ai_control_plane/maintenance.py:27-53 | after any run from the empty database without reused identifiers, and then one round of maintenance: every phrase of a visited tenant that had expired when the round began is erased or its row gone, and any audio of it still stored is held by a task with at least one failed delete, whatever the store does |
| `ControlPlaneMaintenance.RunClock` | services/control-plane/src/music_ai_control_plane/service.py:613-812 | in every run whose operations are dated no later than a time, no task that was never tried is due after it |
| `ControlPlaneMaintenance.MaintenanceIsRun` | services/control-plane/src/music_ai_control_plane/maintenance.py:27-53 | a maintenance round is a run of expiry and deletion passes, so whatever is proved of runs holds of it |
| `ControlPlaneMaintenance.MaintenanceErasesEveryTenant` | services/control-plane/src/music_ai_control_plane/maintenance.py:27-53 | after a round every phrase of every visited tenant that had expired when it began is erased, and every unfinished task of those tenants has been tried, from any state whose untried tasks are dated no later than the round's start |
| `ControlPlaneAudio.DeletionErasesAudioExactly` | services/control-plane/src/music_ai_control_plane/service.py:613-882 | in any reachable state: a song's completed deletion leaves none of its phrases' audio stored, over all operations until then, all times and all store behaviours, if and only if at request time every stored audio object of its phrases is the key on that phrase's own row |
| `ControlPlaneAudio.OnRowsLeavesNone` | services/control-plane/src/music_ai_control_plane/service.py:613-882 | when all of it is on the rows, whatever happens between request and completion, none is left |
| `ControlPlaneAudio.AudioOutlivesItsSong` | services/control-plane/src/music_ai_control_plane/service.py:613-762 | and for any one object that is not on its row there is a store behaviour for which the deletion completes with all rows gone while the object is still stored |
| `ControlPlaneWitnesses.AudioOutlivesItsSongInARun` | services/control-plane/src/music_ai_control_plane/service.py:613-882 | a run from the empty database in which this happens |
| `ControlPlaneRuns.LiveScoreIsBound` | services/control-plane/src/music_ai_control_plane/service.py:450-585 | in every reachable state a live score's tenant, song, session, phrase and manifest belong together, its manifest is accepted and its session's, calibration and score versions agree along the chain, both pieces of evidence are live and stored with its digests, and no other score of the tenant has its idempotency key |
| `ControlPlaneRuns.RecordsAreImmutable` | services/control-plane/src/music_ai_control_plane/models.py:396-426 | no operation changes a score or manifest record except by the privacy purge the listeners allow |
| `ControlPlaneRuns.RunKeepsRecords` | services/control-plane/src/music_ai_control_plane/models.py:396-426 | over every run each record is the original, a purge of it, or newly created |
| `ControlPlaneRuns.StoreNeverRefuses` | services/control-plane/src/music_ai_control_plane/service.py:156-160 | no upload ever meets an object with other bytes under its key |
| `ControlPlaneRuns.KeyedRowsAreLive` | services/control-plane/src/music_ai_control_plane/service.py:471-480 | a score or phrase row that still has its idempotency key is never deleted, so the guards against replaying a deleted one never act |
| `ControlPlaneService.Service.Execute` | services/control-plane/src/music_ai_control_plane/service.py:78-882 | every operation, run on fields updated in place, keeps the invariant and computes exactly the specified step and answer |
| `ControlPlaneService.Service.CreateSong` | services/control-plane/src/music_ai_control_plane/service.py:78-124 | the statements of the method compute the specified step: replay, conflict or a new row |
| `ControlPlaneService.Service.UploadSource` | services/control-plane/src/music_ai_control_plane/service.py:126-165 | likewise, with the store's effect surviving a failed commit |
| `ControlPlaneService.Service.VerifyPayload` | services/control-plane/src/music_ai_control_plane/service.py:1006-1021 | a payload is accepted exactly when it is within the limit and matches the declared length and digest |
| `ControlPlaneService.Service.ReserveAsset` | services/control-plane/src/music_ai_control_plane/service.py:170-209 | computes the specified step |
| `ControlPlaneService.Service.UploadAsset` | services/control-plane/src/music_ai_control_plane/service.py:211-246 | computes the specified step, with the store's effect surviving a failed commit |
| `ControlPlaneService.Service.ValidateManifestArtifacts` | services/control-plane/src/music_ai_control_plane/service.py:967-1004 | the loop accepts exactly when every pointer fits a live stored artifact of the song |
| `ControlPlaneService.Service.PublishManifest` | services/control-plane/src/music_ai_control_plane/service.py:260-317 | computes the specified step |
| `ControlPlaneService.Service.CreatePracticeSession` | services/control-plane/src/music_ai_control_plane/service.py:319-352 | computes the specified step |
| `ControlPlaneService.Service.ReservePhrase` | services/control-plane/src/music_ai_control_plane/service.py:357-416 | computes the specified step, in the source's order of checks |
| `ControlPlaneService.Service.UploadPhrase` | services/control-plane/src/music_ai_control_plane/service.py:418-445 | computes the specified step, with the store's effect surviving a failed commit |
| `ControlPlaneService.Service.RequireScoreEvidence` | services/control-plane/src/music_ai_control_plane/service.py:541-585 | answers exactly whether both digests name live stored assets of the score's song, with the source's error for each way to fail |
| `ControlPlaneService.Service.WriteScore` | services/control-plane/src/music_ai_control_plane/service.py:450-539 | computes the specified step: replay by key first, then every objection in order, then one new record |
| `ControlPlaneService.Service.RequestSongDeletion` | services/control-plane/src/music_ai_control_plane/service.py:613-762 | the loops over five tables erase exactly the song's rows, collect exactly their keys and create exactly one task for each |
| `ControlPlaneService.Service.AddDeletionTasks` | services/control-plane/src/music_ai_control_plane/service.py:1037-1054 | adds exactly one pending task for each key and no other |
| `ControlPlaneService.Service.ExpireRawAudio` | services/control-plane/src/music_ai_control_plane/service.py:764-812 | the loop over expired phrases computes the specified step and counts them |
| `ControlPlaneService.Service.AttemptDeletions` | services/control-plane/src/music_ai_control_plane/service.py:823-850 | the loop attempts each due task once, removes exactly the objects whose delete took effect and counts outcomes |
| `ControlPlaneService.Service.SettleRequests` | services/control-plane/src/music_ai_control_plane/service.py:852-881 | the loop settles each pending request by its tasks and purges the songs whose deletion completed, in any order of requests |
| `ControlPlaneService.Service.PurgeSongRecords` | services/control-plane/src/music_ai_control_plane/service.py:1056-1073 | deleting row by row, table by table, ends with exactly the song's rows gone from six tables, every other row as it was, and nothing else changed |
| `ControlPlaneService.Service.ProcessDeletions` | services/control-plane/src/music_ai_control_plane/service.py:814-882 | attempts, then settles: the specified step with its two counts |
| `ControlPlaneService.Service.Interrupted` | services/control-plane/src/music_ai_control_plane/service.py:823-850 | a pass cut short before its commit changes the store only |
| `ControlPlaneService.Service.RunMaintenance` | services/control-plane/src/music_ai_control_plane/maintenance.py:27-53 | the loop over tenants keeps the invariant and ends in the specified state with the specified summary |
| `LocalStore.MemoryObjectStore.Put` | services/control-plane/src/music_ai_control_plane/storage.py:66-70 | refuses exactly a different payload at a known key, and otherwise stores |
| `LocalStore.LocalObjectStore.Put` | services/control-plane/src/music_ai_control_plane/storage.py:22-39 | run with or without another writer slipping in between check and link, a put does to the paths what the store in memory does after that writer, and leaves no temporary file |
| `LocalStore.NextInv` | services/control-plane/src/music_ai_control_plane/storage.py:22-42 | whatever step any writer takes, fails or dies at, a path only holds a file whose writer has written all of it and is done with it |
| `LocalStore.StepRefines` | services/control-plane/src/music_ai_control_plane/storage.py:22-76 | every step of any interleaving, deletions included, is one operation of the store in memory with its outcome, or changes nothing stored |
| `LocalStore.RunRefines` | services/control-plane/src/music_ai_control_plane/storage.py:22-76 | after any interleaving the paths hold what the store in memory holds after the operations that took effect, in that order |
| `LocalStore.OutcomesAgree` | services/control-plane/src/music_ai_control_plane/storage.py:22-39 | a put that returned, or was refused, took effect in that order and got there the answer it gave |
| `LocalStore.TracedArePast` | services/control-plane/src/music_ai_control_plane/storage.py:22-39 | no put takes effect twice |
| `LocalStore.SetOnce` | services/control-plane/src/music_ai_control_plane/storage.py:34-39 | without deletions, a key's content never changes once it is set |
| `LocalStore.StoredIsSomeones` | services/control-plane/src/music_ai_control_plane/storage.py:31-35 | what is stored is one caller's complete payload, never a partial or mixed one |
| `LocalStore.ReturnsExactlyIfStored` | services/control-plane/src/music_ai_control_plane/storage.py:22-39 | without deletions, a put that ended without an I/O error returned normally if and only if what is stored at its key is its own payload |
| `LocalStore.EveryPutFinishes` | services/control-plane/src/music_ai_control_plane/storage.py:22-39 | however others interleave, a put that has had six turns of its own and one for each byte of its payload has returned, raised or died |
| `OggTheorems.AcceptedIsLegal` | companions/mgg-helper/src/ogg.rs:19-192 | a file is accepted if and only if it is the encoding of a legal pagination of at least four packets: pages tile it, sequence numbers follow, first and last flags are where they belong, continuation flags are set exactly mid-packet, lacing and bodies carry exactly the packets; the summary is that pagination's |
| `OggTheorems.EncodingIsUnique` | companions/mgg-helper/src/ogg.rs:41-101 | no two lists of well-formed pages encode alike |
| `OggTheorems.LacingIsUnique` | companions/mgg-helper/src/ogg.rs:131-152 | no two lists of packets lace and flatten alike |
| `OggTheorems.SplitLaced` | companions/mgg-helper/src/ogg.rs:131-152 | splitting a lacing stream at values below 255 gives back any packets that were laced, with every body byte |
| `OggTheorems.SplitLaces` | companions/mgg-helper/src/ogg.rs:131-152 | any lacing stream whatever is the lacing of the packets it splits into, plus what is pending |
| `OggTheorems.RestIsMid` | companions/mgg-helper/src/ogg.rs:125-130 | something is pending exactly when the last segment is full |
| `OggTheorems.CorruptionIsRejected` | companions/mgg-helper/src/ogg.rs:19-101 | anywhere in a file, a page changed within four consecutive bytes outside its CRC field makes the file be rejected, unless another page of another length, matching its own CRC, starts where the damaged one did; a change that leaves the lacing alone is always noticed |
| `OggTheorems.DamageMismatches` | companions/mgg-helper/src/ogg.rs:94-101 | any change within four consecutive bytes outside the CRC field, lacing included, makes the stored and computed CRC differ |
| `OggPages.ReadSerialized` | companions/mgg-helper/src/ogg.rs:45-101 | reading a written page gives it back, whatever follows |
| `OggPages.ReadIsSerialized` | companions/mgg-helper/src/ogg.rs:45-101 | whatever page is read, the bytes consumed are exactly that page written out |
| `OggPages.DecodeEncoded` | companions/mgg-helper/src/ogg.rs:58-75 | little-endian decoding inverts encoding for every width and value that fits |
| `OggPages.EncodeDecoded` | companions/mgg-helper/src/ogg.rs:58-75 | and encoding inverts decoding |
| `OggStream.ValidateOggVorbis` | companions/mgg-helper/src/ogg.rs:19-192 | the page loop, with its running position, pending packet and counters, computes the validation function the theorems are about |
| `OggStream.ReadPageAt` | companions/mgg-helper/src/ogg.rs:45-101 | reading at a position computes the page at the front of the rest, or its error |
| `OggStream.ConsumeSegments` | companions/mgg-helper/src/ogg.rs:131-152 | the segment loop over one page computes its packets, its pending rest or its error |
| `OggStream.CheckHeader` | companions/mgg-helper/src/ogg.rs:194-237 | an accepted identification header has one to eight channels and a rate from 8,000 to 384,000 |
| `OggCrc.ComputeChecksum` | companions/mgg-helper/src/ogg.rs:239-252 | the nested loop computes the checksum of the page |
| `OggCrc.RegisterInjective` | companions/mgg-helper/src/ogg.rs:239-252 | feeding the same bytes never makes two different registers meet |
| `OggCrc.FeedFour` | companions/mgg-helper/src/ogg.rs:239-252 | four bytes at once act on the register as one word followed by 32 shifts |
| `OggCrc.BurstDetected` | companions/mgg-helper/src/ogg.rs:239-252 | two messages of equal length, of any length, that differ only within four consecutive bytes have different checksums |
| `Qmc2.ChunksAgree` | companions/mgg-helper/src/qmc2.rs:296-332 | decrypting in any sequence of chunks at running offsets equals one whole call |
| `Qmc2.AppliedTwice` | companions/mgg-helper/src/qmc2.rs:174-178 | applying the cipher twice at the same offset is the identity |
| `Qmc2.AppliedAppend` | companions/mgg-helper/src/qmc2.rs:296-332 | a concatenation decrypts as its parts at their own offsets |
| `Qmc2.SchedulePermutes` | companions/mgg-helper/src/qmc2.rs:214-219 | key scheduling permutes the box, for every key and every prefix of the loop |
| `Qmc2.GeneratorPermutes` | companions/mgg-helper/src/qmc2.rs:256-262 | so does generating any number of bytes |
| `Qmc2.CoveredPrefix` | companions/mgg-helper/src/qmc2.rs:275-280 | the bytes from the start of a file can be decrypted if and only if the map cipher is used, the key has 512 bytes or more, or they end within as many segments as the key has bytes |
| `Qmc2.ScrambleIsRotation` | companions/mgg-helper/src/qmc2.rs:153-160 | shifting a key byte both ways by the amount its index gives is the rotation it is called for every byte if and only if the index is a multiple of four |
| `Qmc2.Rc4Crypto.ScheduleKey` | companions/mgg-helper/src/qmc2.rs:214-219 | the swaps in place compute the scheduled box |
| `Qmc2.Rc4Crypto.FillBox` | companions/mgg-helper/src/qmc2.rs:202-212 | the box starts as byte values in order, wrapping at 256 |
| `Qmc2.Rc4Crypto.Derive` | companions/mgg-helper/src/qmc2.rs:256-262 | one swap in place advances the generator by one and returns its output |
| `Qmc2.Rc4Crypto.EncodeFirstSegment` | companions/mgg-helper/src/qmc2.rs:265-272 | combines each byte with the key stream of its absolute offset |
| `Qmc2.Rc4Crypto.EncodeOtherSegment` | companions/mgg-helper/src/qmc2.rs:275-293 | skips to the offset within the segment and combines each byte with the key stream of its absolute offset, or fails exactly when the segment has no key byte |
| `Qmc2.Rc4Crypto.Decrypt` | companions/mgg-helper/src/qmc2.rs:296-332 | the dispatch over first, partial, whole and last segments equals one key-stream byte per absolute offset, touches nothing outside the range, and fails exactly when some offset has no key byte |
| `Qmc2.MapCrypto.MapL` | companions/mgg-helper/src/qmc2.rs:155-171 | the mask of an offset is computed as the specified key-stream byte, reducing the offset only when it is above 0x7fff |
| `Qmc2.MapCrypto.Decrypt` | companions/mgg-helper/src/qmc2.rs:173-178 | combines each byte in place with the key stream of its absolute offset |
| `SecureIo.Crypto.Decrypt` | companions/mgg-helper/src/qmc2.rs:365-370 | dispatching on the key's length decrypts in place exactly the range asked for |
| `SecureIo.Crypto.constructor` | companions/mgg-helper/src/qmc2.rs:351-362 | keys over 300 bytes select the second cipher and no others do |
| `SecureIo.DecryptFile` | companions/mgg-helper/src/secure_io.rs:98-115 | for every pattern of short reads and errors, a run that ends well has written the whole input combined with the key stream; with reads that never stall it ends well exactly when every offset has a key byte |
| `SecureIo.DecryptToAtomicOutput` | companions/mgg-helper/src/secure_io.rs:69-138 | an output is committed only if it is the complete decryption and a valid Ogg Vorbis stream, and with reads that never stall whenever it is; the length check after validation never fails |
| `SecureIo.DriveCounts` | companions/mgg-helper/src/secure_io.rs:125-130 | the validator's reported size is always the file's |
| `SecureIo.ShortKeyRunsOut` | companions/mgg-helper/src/qmc2.rs:275-280 | a key has key bytes for a whole file except when it has 301 to 511 bytes and the file is longer than one segment for each of them; for every such key the size check lets files through that are too long |
| `SecureIo.DecryptAuthorized` | companions/mgg-helper/src/lib.rs:43-53 | from the decoded key to the published file: a file too long for its key is never published, however the reads turn out; the run panics on no other file, and on every such file that the reads deliver whole |
| `Calibration.CalibrationIsSound` | services/scoring/src/music_ai_scoring_service/calibration.py:24-140 | under the default policy an accepted calibration has an anchor with drift within the limit, events that bracket the phrase closely and agree with the anchor, playheads that strictly increase and keep within 0.005 of the microphone's advance between any two events, and every phrase offset placed within half a sample plus 2 ms over the rate |
| `Calibration.LatestIs` | services/scoring/src/music_ai_scoring_service/calibration.py:29-34 | the authoritative events are exactly the highest revision of each sequence number, in order |
| `Calibration.PlacedSurrounds` | services/scoring/src/music_ai_scoring_service/calibration.py:63-133 | for any policy: an accepted phrase is bracketed by events near it, free of seeks and agreeing with the anchor's drift within the residual, and its budget is not exceeded |
| `Calibration.PlacedWithinBudget` | services/scoring/src/music_ai_scoring_service/calibration.py:113-133 | for any policy, every offset of the phrase lies within half a sample plus the allowed error over the rate of its compensated position |
| `Calibration.SegmentAdvances` | services/scoring/src/music_ai_scoring_service/calibration.py:49-61 | between any two events of a segment, by telescoping, the playhead moves forward and by what the microphone did to within the rate error |
| `Calibration.Closest` | services/scoring/src/music_ai_scoring_service/calibration.py:106-109 | the anchor is one of the events around the phrase and none is nearer its start |
| `CalibratePhrase.Calibrate` | services/scoring/src/music_ai_scoring_service/calibration.py:24-140 | the procedure with its dictionaries, segments, generators and loops computes the calibration function the theorems are about |
| `CalibratePhrase.SelectLatest` | services/scoring/src/music_ai_scoring_service/calibration.py:29-33 | the dictionary holds exactly the latest revisions |
| `CalibratePhrase.InOrder` | services/scoring/src/music_ai_scoring_service/calibration.py:34 | visiting the dictionary's keys in order gives the authoritative events |
| `CalibratePhrase.GroupSegments` | services/scoring/src/music_ai_scoring_service/calibration.py:49-61 | the loop splits the events exactly where the rate error is too large |
| `CalibratePhrase.TogetherIffNoSeek` | services/scoring/src/music_ai_scoring_service/calibration.py:49-98 | two events share a segment if and only if no seek or loop lies between them |
| `CalibratePhrase.GroupsAreSlices` | services/scoring/src/music_ai_scoring_service/calibration.py:49-61 | every segment is a contiguous slice of the events |
| `CalibratePhrase.FindSegment` | services/scoring/src/music_ai_scoring_service/calibration.py:89-96 | finds a segment with both anchors exactly when one exists |
| `CalibratePhrase.AllAgree` | services/scoring/src/music_ai_scoring_service/calibration.py:113-121 | the residual loop accepts exactly when no event contradicts the anchor |
| `CalibratePhrase.BuildTimeline` | services/scoring/src/music_ai_scoring_service/pipeline.py:107-112 | the frame loop, with its skip and its stop, computes the frames' sample indices |
| `CalibratePhrase.TimelineIs` | services/scoring/src/music_ai_scoring_service/pipeline.py:107-112 | when the first frame is not before the song, the indices are a prefix of the shifted offsets, inside the song, still a hop apart, and cut off only at its end |
| `CalibratePhrase.FramesWithinBudget` | services/scoring/src/music_ai_scoring_service/pipeline.py:101-131 | every frame that reaches the scorer is inside the song and within the error budget of where the microphone says it belongs; there is none exactly when the phrase starts after the song |
| `Gate.GateIsSound` | services/ingest-worker/src/music_ai_ingest/pipeline.py:212-319 | every outcome meets the manifest contract; the status is decided exactly by presence, separation, leakage, regions and coverage; an accepted song has coverage in [0,1], distinct valid regions, no blocking issue, and the scorer's own filter keeps at least the samples the gate counted, more than none |
| `Gate.IngestedIsScorable` | services/ingest-worker/src/music_ai_ingest/pipeline.py:179-200 | the manifest built around any outcome is valid, and scoring the whole of an accepted one never abstains for want of regions |
| `Gate.SurveyFine` | services/ingest-worker/src/music_ai_ingest/pipeline.py:221-290 | over any candidates: regions are valid, distinct and within them, and the eligible samples never exceed those the scorer's filter keeps or the total |
| `Gate.RegionIsValid` | services/ingest-worker/src/music_ai_ingest/pipeline.py:221-290 | a usable candidate's medians give a region that meets its contract |
| `Gate.NormalizedFrame` | services/ingest-worker/src/music_ai_ingest/pipeline.py:108-117 | rounding keeps a frame valid if and only if its pitch does not round to zero |
| `Gate.RunGate` | services/ingest-worker/src/music_ai_ingest/pipeline.py:212-319 | the loop over candidates computes the gate's outcome |
| `Coach.CoachAlwaysAnswers` | services/coach/src/music_ai_coach/service.py:49-92 | for every score and whatever the primary provider does, coaching with the rules as fallback returns one action up to the limit without raising; each cites a different selected correction with that correction's own range or in-range hertz value; other scores get exactly one text action; the fallback is used exactly when the primary was asked and failed |
| `Coach.FailureIsTheServicesOwn` | services/coach/src/music_ai_coach/service.py:49-110 | with any fallback at all, nothing but the service's own errors escapes, and the policy is the first thing checked |
| `Coach.AdmittedBuilds` | services/coach/src/music_ai_coach/service.py:226-308 | whatever plan passes validation builds without an exception into faithful actions with the exercises it chose and pairwise different identifiers |
| `Coach.RulesAreAdmitted` | services/coach/src/music_ai_coach/providers.py:37-63 | every plan of the rule provider meets its contract and passes validation |
| `Coach.RunIsFaithful` | services/coach/src/music_ai_coach/service.py:112-130 | a provider's run either fails or delivers something faithful to the score |
| `Coach.RequestIsValid` | services/coach/src/music_ai_coach/service.py:149-192 | the request shown to a provider always meets its contract |
| `Coach.SelectionIsTop` | services/coach/src/music_ai_coach/service.py:132-147 | the selected corrections are part of the score's, in priority order, and nothing left out precedes them |
| `Coach.SelectionIgnoresOrder` | services/coach/src/music_ai_coach/service.py:132-147 | with distinct identifiers the selection does not depend on the order of the corrections |
| `Coach.ScoredPhraseIsCoached` | services/coach/src/music_ai_coach/service.py:49-92 | whatever score the scorer returns can be coached; one without corrections gets a single text action |
| `Coach.ApprovedIsSafe` | services/coach/src/music_ai_coach/policy.py:46-69 | the approved policy meets every bound and ranks every kind of correction |
| `Coach.ProposeRules` | services/coach/src/music_ai_coach/providers.py:37-63 | the loop proposes exactly one exercise for each correction shown, up to the limit |
| `Coach.ValidatePlan` | services/coach/src/music_ai_coach/service.py:194-224 | the checks accept exactly plans within the limit, of allowed exercises, citing known aliases and backed tones, or the single text action |
| `Coach.BuildActions` | services/coach/src/music_ai_coach/service.py:226-279 | the loop builds every action or fails with the first that cannot be built |
| `Coach.RunProvider` | services/coach/src/music_ai_coach/service.py:112-130 | name, proposal, contract, validation and building, in that order |
| `Coach.Coach` | services/coach/src/music_ai_coach/service.py:49-92 | the try and fallback control flow computes the answer the theorems are about |
| `RateLimit.AtMostTwentyThree` | apps/web/src/app/api/coach/route.ts:29-45 | with a clock that never goes back, over any history and across evictions, no key is admitted more than 23 times in any half-open 60-second interval |
| `RateLimit.TwentyThreeHappens` | apps/web/src/app/api/coach/route.ts:29-45 | and 23 times is reached, so the bound is exact |
| `RateLimit.AtMostTwelvePerWindow` | apps/web/src/app/api/coach/route.ts:38-44 | from the request that opens a window, a key is admitted at most twelve times in its sixty seconds |
| `RateLimit.RunStaysBounded` | apps/web/src/app/api/coach/route.ts:29-45 | for any clock at all, the map never exceeds 10,000 keys and no count leaves 1 to 12 |
| `RateLimit.RefusedExactly` | apps/web/src/app/api/coach/route.ts:29-45 | a request is refused if and only if its key's open window is used up, or the key is new while 10,000 others have one open |
| `RateLimit.OthersKeepTheirWindow` | apps/web/src/app/api/coach/route.ts:32-37 | no request changes another key's entry or evicts one whose window is open |
| `RateLimit.RateLimiter.Consume` | apps/web/src/app/api/coach/route.ts:29-45 | the method on the mutable map computes the specified admission and new map |
| `RateLimit.RateLimiter.Evict` | apps/web/src/app/api/coach/route.ts:33-35 | deleting while iterating removes exactly the stale entries |

## Left out

- HTTP routing, authentication, SQL sessions, row locks, migrations and deployment: each service method is one atomic step over maps.
- `get_*` and `list_scores`, which only read.
- File permissions, path resolution, symbolic links and `fsync`: not part of the objects' meaning.
- SHA-256, HMAC, UUID derivation, JSON canonicalisation and policy fingerprints: modelled as identity of content; one approved policy of each kind.
- IEEE rounding: ratios, medians, thresholds and durations are exact reals, so a comparison that only rounding decides is not modelled.
- Key fetching, `parse_ekey`, TC-TEA and the floating-point segment key: the key is given, and the segment key is any function.
- Separation, pitch and leakage models and `energy_dbfs`: any output within the declared ranges.
- Building `UserFeaturesV1` from provider frames beyond their sample indices.
- Message texts, gateways and HTTP clients of the coach: a provider is any name and any answer or failure. A provider is taken to answer with raw data or with a plan built by its constructor, so a plan object that bypassed its validators is not modelled.
- React components, audio capture and playback, generated types and schema exporters.
- Two maintenance workers at once: the source holds row locks that the model's atomic steps stand for.
- ControlPlaneService.Service.ProcessDeletions: the order in which due tasks are attempted is not modelled, because the result does not depend on it.
- ControlPlaneService.Service.RunMaintenance: the count of tenants in the summary is left out, being the length of the list.
- ControlPlaneMaintenance.MaintenanceErasesExpired: assumes phrase identifiers are not reused after a purge, without which it is false (`ControlPlaneWitnesses.ReusedNeverExpiresInARun`), and that the round's times do not go back.
- ControlPlaneRuns.EveryDeletionSettles: assumes the passes are spaced by the longest back-off, since a pass before a task is due does not try it.
- ScoreWitnesses.FourEachFail: takes the logarithm and the square root to be right at the few values the witness uses.
- OggTheorems.CorruptionIsRejected: damage that moves the end of the page can meet bytes that form a page with a matching checksum; the lemma says that nothing else goes unnoticed.
- OggStream.ValidateOggVorbis: I/O errors while reading the temporary file are not modelled, and the page counter's overflow is an error as in the source.
- Qmc2.CoveredPrefix: a seed byte of zero divides by zero in floating point in the source, which saturates; any segment key is allowed here.
- SecureIo.DecryptToAtomicOutput: choosing the output path, permissions and the final rename are left out; committing is one step.
- LocalStore.LocalObjectStore.Put: errors and crashes are in the step model only.
- RateLimit.AtMostTwentyThree: assumes a clock that does not go back; `RateLimit.RunStaysBounded` does not.
- Coach.CoachAlwaysAnswers: with the rule provider as fallback; for other fallbacks see `Coach.FailureIsTheServicesOwn`.
- ScorePhrase.ScoreIsValid: the number of metrics and lengths of identifiers and version names are not modelled.
