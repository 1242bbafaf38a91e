# Verified model of a customer-acquisition service

This project models the parts of the service where several writers share stored state, and proves what
those parts keep. It covers:

- **Inbound API.** Callers race to claim a stored record per idempotency key; the winner executes the request and
  finalizes the record in one transaction (`InboundIdempotency`). The fixed-window rate limiter of the same API is
  `InboundRateLimit`.
- **Persistent jobs.** Claims, stale recovery, retries, cancellation and late reports of workers whose job has been
  recovered (`JobLifecycle`), and the check of a job's payload for secrets (`JobPayload`).
- **Acquisition missions.** The projection of stored jobs onto missions, single and in batch (`MissionResults`,
  with the stored rows in `AcquisitionRows`), the resolver of business results (`BusinessResults`), and the
  reconciler with notifications, time-outs, retries and provider incidents (`MissionReconcile`).
- **Acquisition candidates.** The eligibility gate and the integer score (`CandidateScoring`), the assessment that
  feeds them (`CandidateAssessment`), the stored evidence and its version (`CandidateEvidence`), the stored
  assessments (`AssessmentRows`), what one transaction does to a candidate (`CandidateRows`), the life of a candidate
  over all its writers up to promotion into the CRM (`CandidateLifecycle`), the theorems about all its histories
  (`CandidateHistory`, and `AssessmentHistory` for evidence, assessments and scores), and the tables with the routines
  that write them (`CandidateTables`).
- **Competitor radar.** The structural difference of two snapshots and the loss of a baseline (`RadarDiff`), the
  scan with its growing work list (`RadarScan`), and the runs with their jobs and notifications (`RadarRuns`).

Beside them, `InboundAnswers`, `JobMeaning`, `TextMeaning`, `ResultMeaning`, `MissionMeaning`, `ScoreMeaning`,
`CandidateMeaning`, `DiscoveryMeaning`, `PromotionMeaning`, `ScanMeaning` and `RadarMeaning` say what the operations
do in stored fields, payload fields and literal numbers alone, without the functions the operations are written with.

`Common`, `Ordering` and `TextForms` hold an option type, the clock type, a stable sort, and stripping and
upper-casing.

## How the model is built

Every SQL statement or transaction is one atomic step on rows; a run is a sequence of steps of any callers in any
order, and each step carries its own clock reading. What the steps do is written as functions on values, and the
theorems are about all runs of those functions. Beside them, classes (`InboundStore`, `RateLimitTable`, `JobTable`,
`AcquisitionStore`, `CandidateStore`, `RunTable`) hold the tables as fields and have methods with the branches and
loops of the source; each method is proved equal to the function for its step, so the theorems speak about it. A
transaction that is refused or fails is rolled back and changes nothing.

The clock, fresh identifiers and tokens, digests, JSON texts, e-mail and domain normalisation, fetched pages, the
answers of the queue and of search providers are parameters.

Assumptions: reading the attempt number of a job and the conditional update that follows it are one step
(`TornRecoverySafeIff` and `TornActivationSafeIff` say exactly what happens otherwise); assessment, candidate and
review transactions are serializable; different evidence has different digests, and of two assessments stored at the
same time the one stored later counts as the latest;
quotients are exact, which agrees with the floating-point ones here because every denominator of a score is at
most 100 and the shares of the drift test are 1/2 and 3/5 of small counts.

## Where the code does not keep what one would expect

- The rate limiter can refuse a caller although the window has room (`RaceRefusesWithRoom`). In every run this needs
  another caller that opened a window after the call arrived; without one a call is refused exactly when it found the
  window full (`RefusedIffFullOrOvertaken`).
- A recovery that reads the attempt number before another recovery and writes after it can give a job more
  executions than `max_attempts` (`TornRecoveryCanExceedTheBound`). The bound holds over every continuation exactly if
  the number read fails the job or covers the claims made (`TornRecoverySafeIff`), so comparing the number read with
  the stored one would be enough (`ComparedRecoveryIsSafe`).
- A succeeded or failed job is re-opened by a late retryable error (`LateErrorReopensSuccess`, `TerminalLeftIff`).
- Promoting a candidate whose lead was deleted writes a new lead without looking at the country, and an import may
  have made that country unknown since, exactly if it is of another provenance or brings a new page
  (`RePromotionLosesCountryIff`). Every other promotion that writes has a confirmed country (`WritingPromotionIff`).
- The assessment job keeps a stored assessment of the same evidence, prompt and model without comparing it, and still
  writes the columns and the status of the candidate. A verification that tells the country on its second visit makes
  a candidate eligible whose only stored assessment asks for that country, and the lead of its promotion takes its
  priority from the columns and its fit from that assessment (`OverlookedAssessmentReachesLead`). The stored
  assessment is current exactly if none of that version was stored or it says the same (`StoredIsCurrentIff`), and the
  latest one exactly under the condition of `LatestIsCurrentIff`.
- A person who confirms a country by the page that was already stored, from which no facts could be extracted, is
  refused; any other page is accepted (`SamePageOverrideIff`).
- No writer ever stores a conflicting country, so the branches for it are dead, and the country checks of the single
  acceptance never refuse an eligible candidate (`ReachableCandidates`, `AcceptIff`).
- The radar delta compares values with the runtime's equality, for which `1`, `1.0` and `true` are equal. A fact that
  changes between them leaves an empty delta, so no change signal is created (`ChangeWithoutDelta`); patching gives
  the target itself exactly when there is no such pair (`PatchGivesTarget`).
- A terminal radar run that was not cancelled is rewritten by a handler that finishes late with another status
  (`TerminalRewrittenIff`), and this happens (`LateFinishRewritesFailure`).
- Learning a signal can lower a score: the exact mean of a dimension falls exactly if what is learned is below it
  (`ExactMeanFallsIff`, `OneValueLowersIff`), and the rounded scores and the priority under the conditions of
  `ScoreFallsIff` and `PriorityFallsIff`. Every eligible candidate without product terms whose page claims
  something loses 3 or 4 points of priority when its product terms become known (`ProductTermsLowerPriority`). Signals
  that are not below the score of their dimension never lower it (`LearningKeepsScore`), and the priority does not
  fall if moreover a dimension that becomes known starts at the priority or above (`LearningKeepsPriority`).

## Model

| member | source | states |
|---|---|---|
| InboundIdempotency.ExactlyOnce | app/modules/inbound/service.py:243-367 | In every interleaving of any callers, two committed executions for one key are separated by a re-claim made no earlier than the first finalizer's time plus its time to live (24 h or 5 min) |
| InboundIdempotency.TokenCommitsAtMostOnce | app/modules/inbound/service.py:552-594 | A claim token commits at most once in any run |
| InboundIdempotency.SupersededChangesNothing | app/modules/inbound/service.py:552-570 | Finalizing with a token that is no longer the stored one changes no record, lead or activity |
| InboundIdempotency.SupersededNeverCommits | app/modules/inbound/service.py:311-340 | Once superseded, a token stays superseded and never commits again, whatever everybody does |
| InboundIdempotency.DigestNeverChanges | app/modules/inbound/service.py:307-363 | The payload digest stored for a key never changes, not even across expiry and re-claim |
| InboundIdempotency.EveryReplayFaithful | app/modules/inbound/service.py:342-345 | Every replayed response is the stored result of the latest commit for that key before it, of the same payload digest |
| InboundIdempotency.CrmIsCommittedEffects | app/modules/inbound/service.py:444-497 | The CRM is exactly the effect of the committed executions in order: one activity per accepted one, no lead twice |
| InboundIdempotency.ProcessKeepsCrmOk | app/modules/inbound/service.py:444-497 | The business transaction keeps one lead per e-mail and tenant, and activities of stored leads only |
| InboundIdempotency.SoloStepsAreCheckAlone | app/modules/inbound/service.py:243-367 | Three undisturbed steps of a call give the rows and the answer of the routine run alone |
| InboundIdempotency.AbandonedKeyRecovers | app/modules/inbound/service.py:311-367 | Once lease or expiry has passed, a fresh undisturbed call with the stored payload owns the key and commits |
| InboundIdempotency.InboundStore.CheckIdempotency | app/modules/inbound/service.py:243-367 | Insert, read, conditional takeover or re-claim: rows and answer are those of the routine run alone |
| InboundIdempotency.InboundStore.ProcessAndFinalize | app/modules/inbound/service.py:527-594 | Renew, execute and finalize in one transaction exactly if the token is the stored one; otherwise nothing changes |
| InboundAnswers.ProcessAnswers | app/modules/inbound/service.py:444-497 | A filled trap field is answered as accepted and leaves nothing, an address without an at sign is refused and leaves nothing; any other request leaves one activity of the lead with its tenant and e-mail, added only if none has both |
| InboundAnswers.EveryCommitIsAnswered | app/modules/inbound/service.py:527-594 | In every interleaving each commit was answered like that, by a lead that is still there; the activities are those of the accepted commits in order, and every lead was made for one of them |
| InboundAnswers.ClaimMovesIff | app/modules/inbound/service.py:311-367 | A stored record passes to another call exactly by its conditional update: on a record in processing whose lease of 30 seconds is over, or on one whose time to live is; what it then holds |
| InboundAnswers.EveryRecordIsSettled | app/modules/inbound/service.py:571-588 | In every run a record in processing has a lease; a finished one has none, has an answer, and counts as failed exactly for a refused address |
| InboundAnswers.EveryCallEnds | app/modules/inbound/service.py:243-367 | Whatever others do in between, a call that makes its read and then its update ends as the owner of its key or with an answer |
| InboundAnswers.UndisturbedAnswers | app/modules/inbound/service.py:243-367 | Which stored record is answered by ownership, as a conflict, as in progress, or by a replay, and what ownership writes |
| InboundAnswers.CommitFinishes | app/modules/inbound/service.py:527-594 | The commit of a stored token answers as the request deserves and finishes the record, which lives a day or five minutes from then; any other token changes nothing |
| InboundRateLimit.CountIsAdmissions | app/modules/inbound/service.py:153-230 | From any state in which it holds, and through every interleaving, the stored count is the number of admissions since the last reset and at most 100 |
| InboundRateLimit.StoredCountFromStart | app/modules/inbound/service.py:153-230 | So it is in every run that starts without a record: no record means no admission, and a stored count is the admissions of its window, 1 to 100 |
| InboundRateLimit.AnySpanAdmitsAtMostTwiceTheLimit | app/modules/inbound/service.py:149-230 | With each call one step and a nondecreasing clock, any span of 3600 seconds admits at most 200 |
| InboundRateLimit.TwoWindowsApart | app/modules/inbound/service.py:176-189 | Of any 201 consecutive admissions the last comes more than 3600 seconds after the first, given windows as `ServeKeepsWindows` keeps them |
| InboundRateLimit.ServeKeepsWindows | app/modules/inbound/service.py:176-199 | Each served call keeps the windows: at most 100 admissions each, all before its end, and the next one opened no earlier than 3600 seconds after it |
| InboundRateLimit.RaceRefusesWithRoom | app/modules/inbound/service.py:176-199 | A concrete run from no record at all in which a caller is refused although the window holds one admission |
| InboundRateLimit.RefusedIffFullOrOvertaken | app/modules/inbound/service.py:153-230 | In every run, a refused call found the window full when it arrived, or a window was opened by another caller since; without such an opening a call is refused exactly if it found the window full |
| InboundRateLimit.RefusedAloneIffFull | app/modules/inbound/service.py:153-230 | A caller without interference is refused exactly when the running window holds 100 admissions |
| InboundRateLimit.SoloStepsAreCheckAlone | app/modules/inbound/service.py:153-230 | The undisturbed steps of a call are the routine run alone |
| InboundRateLimit.RateLimitTable.CheckRateLimit | app/modules/inbound/service.py:153-230 | The conditional updates and the insert, on the stored counters: new counter and answer of the routine run alone, other buckets unchanged |
| JobLifecycle.ClaimedAtMostMaxAttempts | app/modules/jobs/repository.py:226-317 | Over every run, late workers and recoveries included: claims ≤ attempt ≤ max_attempts, and claims ≤ attempt − 1 while queued |
| JobLifecycle.ExhaustedRetryIsDead | app/modules/jobs/repository.py:281-317 | In every reachable state a retrying job has its due time and an attempt left, so activating a retry never fails it |
| JobLifecycle.TornRecoverySafeIff | app/modules/jobs/repository.py:241-279 | After a recovery with a stale attempt number every continuation keeps the claims within max_attempts, exactly if that number fails the job or covers the claims made |
| JobLifecycle.ComparedRecoveryIsSafe | app/modules/jobs/repository.py:241-279 | So every continuation keeps the bound if the number read is not below the stored attempt, a test the update could make |
| JobLifecycle.TornActivationSafeIff | app/modules/jobs/repository.py:281-317 | The activation of a retry reads the attempt number in the same way: every continuation keeps the bound under the same exact condition |
| JobLifecycle.TornRecoveryCanExceedTheBound | app/modules/jobs/repository.py:249-275 | A concrete torn recovery after which a job with two attempts is claimed three times |
| JobLifecycle.TerminalLeftIff | app/modules/jobs/worker.py:367-419 | A terminal status is left exactly by a retryable worker error with attempts left on a job that is not cancelled |
| JobLifecycle.LateErrorReopensSuccess | app/modules/jobs/worker.py:367-419 | A concrete late error that turns a succeeded job into a retrying one |
| JobLifecycle.OrderlyRunsAreShort | app/modules/jobs/worker.py:120-211 | Where only the current claimant reports, a run changes the status at most 3 × max_attempts times |
| JobLifecycle.OrderlyTerminalIsFinal | app/modules/jobs/worker.py:120-211 | In such runs a terminal status is final |
| JobLifecycle.DriverReachesTerminal | app/modules/jobs/worker.py:450-484 | From every reachable state claims, recoveries and retry activations alone reach a terminal status within the measure |
| JobLifecycle.SilentDeathsUseEveryAttempt | app/modules/jobs/repository.py:241-279 | A job whose workers all die silently is claimed exactly max_attempts times and then failed as stale |
| JobLifecycle.BackoffGrows | app/modules/jobs/worker.py:381-400 | Retry delays start at a minute, never shrink, and are 600 seconds exactly from attempt 5 on |
| JobMeaning.BackoffIs | app/modules/jobs/worker.py:381-400 | The first retries wait one, two, four and eight minutes, every later one ten |
| JobLifecycle.SweepIsComplete | app/modules/jobs/worker.py:450-484 | After a recovery sweep nothing is left to recover, and a second sweep changes nothing |
| JobLifecycle.JobTable.ClaimQueuedForWorker | app/modules/jobs/repository.py:226-239 | Compare-and-set claim of a queued job; other jobs unchanged |
| JobLifecycle.JobTable.CancelQueuedForTenant | app/modules/jobs/repository.py:136-156 | Compare-and-set cancellation of a queued job |
| JobLifecycle.JobTable.CreateAndEnqueue | app/modules/jobs/service.py:54-119 | A payload that names a secret or has no JSON text is refused before anything is stored; otherwise a new job is queued, or failed if the queue refuses its message |
| JobPayload.ForbiddenAtAnyDepth | app/modules/jobs/service.py:253-265 | The recursive search refuses a payload exactly if some key at any depth, stripped, lower-cased and with underscores, is a forbidden name or ends with one |
| TextMeaning.PayloadRefusedIff | app/modules/jobs/service.py:253-265 | The same in characters: the stripped key is one of five names, or ends in one after a dash or an underscore, in either case |
| JobLifecycle.JobTable.HandleWorkerError | app/modules/jobs/worker.py:367-419 | Retry with back-off while attempts are left, else failure; a cancelled job is left alone; a refused schedule fails the job |
| JobMeaning.ErrorMeans | app/modules/jobs/worker.py:367-419 | An error is kept from a cancelled job only; it schedules a retry while attempts are left and fails the job otherwise, with every field it writes |
| JobLifecycle.JobTable.ExecuteScheduledRetry | app/modules/jobs/worker.py:297-322 | A scheduled retry is re-scheduled, dropped or activated by the stored due time |
| JobLifecycle.JobTable.RecoverStaleJobs | app/modules/jobs/worker.py:450-516 | The two recovery loops leave every listed job as one sweep does, and return the number of jobs swept, re-queued or failed |
| JobMeaning.SweepMeans | app/modules/jobs/worker.py:450-516 | The first loop takes the running jobs unheard of for more than 300 seconds, the second those whose retry is due; each is tried again, failed for want of attempts, or failed because the queue refused it |
| JobMeaning.EveryJobIsStamped | app/modules/jobs/repository.py:226-317 | In every run a job that is over tells when, a failed one also why, a running one since when, and one that waits for a retry until when |
| JobLifecycle.CountsAdd | app/modules/jobs/worker.py:450-484 | The numbers of the two loops add up to the number of jobs a sweep changes |
| MissionResults.MissionJobFacts | app/modules/acquisition/mission_results.py:161-183 | The loop over the jobs gives the ordered facts of exactly the jobs that concern the mission |
| MissionResults.MissionJobFactsByMission | app/modules/acquisition/mission_results.py:186-233 | For every mission in scope the batch gives exactly the facts of the single routine with that mission's candidates, for any jobs, malformed payloads included; other missions get none |
| MissionResults.CandidateMissions | app/modules/acquisition/mission_results.py:196-206 | The index of candidates holds exactly the tenant's candidates of the missions in scope |
| MissionResults.OnlyTheTarget | app/modules/acquisition/mission_results.py:207-229 | A job is relevant to no mission in scope but the one its payload points to |
| MissionResults.RelevantMember | app/modules/acquisition/mission_results.py:161-183 | A job is among the relevant ones exactly if it is stored, of the tenant, of an acquisition type and has that identity |
| MissionMeaning.StandsForIff | app/modules/acquisition/mission_results.py:259-286 | Which piece of work a job stands for, by its type and its payload: the plan, the search of a country or the job itself, the verification or the assessment of a candidate of the mission |
| TextMeaning.CountryCodeIff | app/modules/acquisition/mission_results.py:272-276 | A text gives a country code exactly if, without white space around it, it spells two letters |
| TextMeaning.SafeIdIff | app/modules/acquisition/mission_results.py:37-37 | An identifier is safe exactly if it has 1 to 64 letters, digits, underscores and dashes |
| MissionResults.FactsIgnoreJobOrder | app/modules/acquisition/mission_results.py:236-248 | The ordered facts do not depend on the order in which jobs are listed |
| MissionResults.KeyOrder | app/modules/acquisition/mission_results.py:297-303 | Outcome keys are comparable, and equivalent ones are equal |
| MissionResults.KeyTransitive | app/modules/acquisition/mission_results.py:297-303 | The order of outcome keys is transitive, so it is total |
| BusinessResults.CollectLatest | app/modules/acquisition/states.py:97-106 | The dictionary loop keeps, for each identity, the terminal fact of greatest order |
| BusinessResults.LatestHasGreatestOrder | app/modules/acquisition/states.py:97-106 | An identity has a latest fact exactly if it has a terminal one, and no terminal one has a greater order |
| BusinessResults.LatestIsGreatestOutcome | app/modules/acquisition/mission_results.py:236-303 | Ordering and then resolving picks, for every identity, the terminal job with the greatest outcome key |
| BusinessResults.Resolve | app/modules/acquisition/states.py:97-171 | The resolver returns the code, reasons and counts of the facts |
| ResultMeaning.CodeMeans | app/modules/acquisition/states.py:122-134 | Exactly when each code is given, in the statuses of the candidates and of the outcomes that count: ready with an eligible, accepted or promoted candidate, needing review with an undecided one only, and so on |
| ResultMeaning.FailureReasonsGiven | app/modules/acquisition/states.py:136-138 | Which type of failed outcome gives which reason |
| ResultMeaning.OtherReasonsGiven | app/modules/acquisition/states.py:139-147 | Exactly when each other reason is given |
| ResultMeaning.NumbersMean | app/modules/acquisition/states.py:106-120 | Every number is the number of candidates in certain statuses, or of outcomes that failed |
| BusinessResults.CodeMeaning | app/modules/acquisition/states.py:106-143 | Every candidate is counted once; a result that is not cancelled is partial or failed exactly if the mission failed or a latest outcome did; failed means without candidates |
| MissionReconcile.AcquisitionStore.ReconcileMissions | app/modules/acquisition/jobs.py:863-1044 | The pass leaves every mission, candidate and notification as specified row by row, independent of the order of missions, and returns the number of missions finished |
| MissionMeaning.ConcernsIff | app/modules/acquisition/jobs.py:1097-1102 | The jobs of a mission are the acquisition jobs of its tenant whose payload names the mission, or one of its candidates |
| MissionMeaning.OpenMissionOutcome | app/modules/acquisition/jobs.py:917-941 | A queued or running mission ends exactly if some such job is stored and all are over; it runs while one is not, and is left alone without any |
| MissionMeaning.MissionOutcome | app/modules/acquisition/jobs.py:901-988 | Exactly which missions of any status are finished, kept busy and left alone, and what is written |
| MissionMeaning.FailedStatusIff | app/modules/acquisition/jobs.py:963-972 | A finished mission with jobs has failed exactly if, for some piece of its work, the latest outcome failed |
| MissionMeaning.StoredCodeMeans | app/modules/acquisition/jobs.py:957-988 | The stored code tells the status of the mission and what candidates it has after the pass |
| MissionMeaning.StoredNumbersMean | app/modules/acquisition/jobs.py:963-988 | The stored numbers count the candidates of the mission by the status they have after the pass, and their evidence |
| MissionMeaning.StoredReasonsMean | app/modules/acquisition/jobs.py:963-988 | Which types of work failed last, whether a failure is left unexplained, and why there are no results |
| MissionMeaning.CandidateOutcome | app/modules/acquisition/jobs.py:1047-1084 | Exactly the waiting candidates of finished missions whose latest verification failed or was cancelled need evidence afterwards |
| MissionMeaning.EndNotesMean | app/modules/acquisition/jobs.py:1004-1042 | Which notification a finished mission has, with its kind and result, and what becomes of the other one |
| MissionMeaning.ProviderNotesMean | app/modules/acquisition/jobs.py:875-882 | A pass tells of a provider of the tenant that is down for three failures or more, once for each last success |
| MissionMeaning.FinishesCounted | app/modules/acquisition/jobs.py:987-1044 | The number returned is the number of missions finished |
| MissionReconcile.ReconcileIsIdempotent | app/modules/acquisition/jobs.py:863-1044 | A second pass right after the first returns 0 and changes no mission, candidate or notification |
| MissionReconcile.OpenMissionEndsIff | app/modules/acquisition/jobs.py:917-941 | A queued or running mission has ended after the pass exactly if it has a job and all its jobs are terminal |
| MissionReconcile.StoredResultAgreesWithStatus | app/modules/acquisition/jobs.py:957-988 | A finished mission stores a partial or failed result exactly if its status is failed, and partial exactly if it also has a candidate |
| MissionReconcile.ResolvingAgainIsFixpoint | app/modules/acquisition/jobs.py:963-987 | Resolving again after the status write gives the stored result and the stored status |
| MissionReconcile.ResultSurvivesRepairs | app/modules/acquisition/jobs.py:1072-1084 | Repairing any candidates changes neither a mission's jobs nor its resolved result |
| MissionReconcile.OtherTenantsUntouched | app/modules/acquisition/jobs.py:863-1044 | Missions, candidates and notifications of other tenants are unchanged |
| MissionReconcile.OneLiveNotification | app/modules/acquisition/jobs.py:1004-1042 | After a finish exactly the notification of the new status is unread and tells the stored result; that of the opposite status is archived or absent |
| MissionReconcile.FailedVerificationCandidates | app/modules/acquisition/jobs.py:1047-1069 | The loop finds exactly the tenant's candidates whose latest verification failed or was cancelled |
| MissionReconcile.VerifyLatestAgree | app/modules/acquisition/jobs.py:1047-1069 | Reconciler and resolver agree on the latest verification of every candidate with an id of the accepted form |
| MissionReconcile.VerificationFailuresCounted | app/modules/acquisition/states.py:97-120 | The resolved number of failed verifications is the number of the mission's candidates with ids of the accepted form whose latest outcome is failed, not cancelled |
| MissionReconcile.EveryFailureCounted | app/modules/acquisition/models.py:20-21 | Generated ids have the accepted form, so no failed verification of the mission is left out of the resolved number |
| MissionReconcile.AcquisitionStore.RepairCandidates | app/modules/acquisition/jobs.py:1072-1084 | Exactly the lost, unfinished candidates of the mission go to needs_evidence |
| MissionReconcile.AcquisitionStore.FinishMission | app/modules/acquisition/jobs.py:957-1042 | Resolve, write the status, resolve again if it changed, store the result and renew both notifications |
| MissionReconcile.AcquisitionStore.EnforceMissionTimeout | app/modules/acquisition/jobs.py:798-860 | Exactly the active jobs of an overdue open mission are failed, and counted |
| MissionMeaning.TimeoutMeans | app/modules/acquisition/jobs.py:829-860 | The deadline fails exactly the jobs that concern the mission and are not over |
| MissionMeaning.TimeoutsCounted | app/modules/acquisition/jobs.py:843-860 | It counts them |
| MissionReconcile.TimeoutThenReconcileEnds | app/modules/acquisition/jobs.py:679-703 | Enforcing the deadline and then reconciling ends every overdue mission that has a job |
| MissionReconcile.AcquisitionStore.ClaimForRetry | app/modules/acquisition/service.py:867-912 | The conditional claim of a candidate, the archived notifications and the re-opened or flagged mission |
| MissionMeaning.RetryMeans | app/modules/acquisition/service.py:867-912 | Candidate, mission and both notifications after the claim, and everything that stays |
| MissionReconcile.RetryReopensMission | app/modules/acquisition/service.py:878-899 | Over any history of passes of any tenants, further claims and changes elsewhere, while a job of the mission is active every pass keeps it busy: it runs, or stays completed only with a usable candidate |
| MissionReconcile.RetrySilencesMission | app/modules/acquisition/service.py:884-893 | Throughout such a history neither terminal notification of the mission is live |
| MissionReconcile.RetryKeepsBusy | app/modules/acquisition/service.py:894-912 | The queued job of the retried verification is such an active job |
| MissionReconcile.RetriedMissionEnds | app/modules/acquisition/service.py:894-899 | Once its jobs are terminal the next pass finishes a retried mission and leaves no candidate waiting for a lost verification |
| MissionReconcile.OneNotePerIncident | app/modules/acquisition/jobs.py:134-186 | Over every history of provider calls, passes and edits of notifications, the stored count is the current streak of failures, the provider is down from three on, and the notification dated by a success is stored exactly if a streak of three followed that success |
| MissionReconcile.IncidentNoteStays | app/modules/acquisition/jobs.py:162-186 | No later call or pass replaces or revives the notification of an incident |
| MissionReconcile.ProviderCountsStreak | app/modules/acquisition/repository.py:458-482 | The row that successes and failures leave holds the number of failures since the last success, its time, and down from three on |
| MissionReconcile.AcquisitionStore.ReportProviderFailure | app/modules/acquisition/jobs.py:153-159 | One transaction extends the streak and ensures the notification of its incident |
| MissionReconcile.AcquisitionStore.ReportProviderSuccess | app/modules/acquisition/jobs.py:134-150 | One transaction clears the streak, dates the success, and tells whether it ends a streak of failures |
| MissionReconcile.AcquisitionStore.EnsureProviderNotification | app/modules/acquisition/jobs.py:162-186 | The current incident of a provider that is down has its notification; nothing else changes |
| MissionReconcile.AcquisitionStore.RecordProviderFailure | app/modules/acquisition/repository.py:469-482 | A failure extends the streak, degrades the provider, and takes it down from three on |
| CandidateScoring.EvaluateGate | app/modules/acquisition/scoring.py:65-102 | The two stages of the gate, appending reasons in order |
| CandidateScoring.GateOfAnswers | app/modules/acquisition/scoring.py:65-102 | Rejected exactly if a rejecting fact applies, eligible exactly if no fact applies; the reasons are every applicable rejection, else every doubt, once each in fixed order |
| CandidateScoring.GateAnswerUnique | app/modules/acquisition/scoring.py:65-102 | That statement determines the answer |
| ScoreMeaning.GateDecides | app/modules/acquisition/scoring.py:65-102 | The facts that bar a candidate and those that leave it open, with the whole list of reasons in order |
| CandidateScoring.RoundIsNearest | app/modules/acquisition/scoring.py:116-117 | No integer is closer to the quotient, and of two equally close ones the even one is taken |
| CandidateScoring.MeanBetween | app/modules/acquisition/scoring.py:105-118 | The rounded weighted mean lies between any bounds of its known signals, and its coverage in 0..100 |
| CandidateScoring.RefusedIff | app/modules/acquisition/scoring.py:111-113 | A score is refused exactly if a known signal is outside 0..100; the nested mean never refuses |
| CandidateScoring.ScoresBetweenSignals | app/modules/acquisition/scoring.py:135-165 | Through both roundings every score stays between the smallest and the largest known signal |
| CandidateScoring.MeanIsNearest | app/modules/acquisition/scoring.py:105-118 | A dimension's score is off its exact weighted mean by at most half a point |
| CandidateScoring.PriorityWithinOnePoint | app/modules/acquisition/scoring.py:135-165 | With all signals known, coverage is 100 and the twice rounded priority is off the exact weighted mean of the fourteen signals by at most one point |
| ScoreMeaning.ScoresMean | app/modules/acquisition/scoring.py:105-165 | For any known and unknown signals each dimension is the nearest integer to the mean by the given weights, and the coverage the nearest percentage of the known weight |
| ScoreMeaning.PriorityMeans | app/modules/acquisition/scoring.py:164-178 | The priority is the nearest integer to the weighted mean of the known dimensions, and missing exactly without any relevant signal |
| ScoreMeaning.BandMeans | app/modules/acquisition/scoring.py:121-187 | Band and mode, in the priority, the coverage and the known signals |
| CandidateScoring.PriorityMonotone | app/modules/acquisition/scoring.py:121-187 | With the known set fixed, raising signals never lowers a score, the priority or the band |
| CandidateScoring.CoverageGrows | app/modules/acquisition/scoring.py:165-165 | Learning signals never lowers the coverage |
| CandidateScoring.PriorityNeedsRelevance | app/modules/acquisition/scoring.py:121-187 | A priority exists exactly with an intent signal or a product, buyer or industry signal; exact conditions of the bands |
| CandidateScoring.ExactMeanFallsIff | app/modules/acquisition/scoring.py:105-118 | When any signals of a dimension become known, its exact mean falls exactly if the mean of the learned ones is below it |
| CandidateScoring.OneValueLowersIff | app/modules/acquisition/scoring.py:105-118 | One learned value lowers the exact mean exactly if it is below that mean |
| CandidateScoring.ScoreFallsIff | app/modules/acquisition/scoring.py:105-118 | The rounded score of a dimension falls exactly if the learned signals pull its quotient below the point from which rounding gives the old score |
| CandidateScoring.PriorityFallsIff | app/modules/acquisition/scoring.py:135-187 | Between any two inputs with a priority, whatever signals became known or changed, the priority falls exactly if the mean of the new scores of the dimensions is below the rounding point of the old priority |
| CandidateScoring.NewDimensionFallsIff | app/modules/acquisition/scoring.py:135-187 | When a whole dimension becomes known and the others keep their scores, that is so exactly if its score pulls the old mean below that point |
| CandidateScoring.LearningKeepsScore | app/modules/acquisition/scoring.py:105-118 | Learning signals none of which is below the rounded score of the dimension never lowers that score; none above it never raises it |
| CandidateScoring.LearningKeepsPriority | app/modules/acquisition/scoring.py:121-187 | If in every dimension what is learned is not below its score, or not below the priority where the dimension was unknown, the priority does not fall |
| CandidateAssessment.CoverageAtMost65 | app/modules/acquisition/assessment.py:98-121 | Every computed assessment has a score, covers at most 65 and is never in band S or A |
| CandidateAssessment.EligibleIff | app/modules/acquisition/assessment.py:62-96 | The exact facts that make a candidate eligible, a confirmed and accepted country among them |
| CandidateAssessment.EligiblePriority | app/modules/acquisition/assessment.py:87-121 | Every eligible assessment is provisional, in band B, with a priority from 80 to 92 |
| CandidateAssessment.ProductTermsLowerPriority | app/modules/acquisition/assessment.py:98-121 | Every eligible candidate without product terms stays eligible and loses 3 or 4 points of priority when product terms become known, whatever its evidence |
| CandidateAssessment.PriorityRangeIsTight | app/modules/acquisition/assessment.py:98-120 | Both 80 and 92 are reached, and by which evidence |
| CandidateAssessment.OnlyUsableEvidenceCounts | app/modules/acquisition/assessment.py:57-59 | Order, repetition and unusable items of the evidence change nothing |
| CandidateAssessment.EvidenceRaisesCoverage | app/modules/acquisition/assessment.py:98-119 | More evidence never lowers the coverage |
| CandidateHistory.ReachableCandidates | app/modules/acquisition/service.py:1167-1276 | In every reachable state: promoted exactly with a lead id, none left accepted, eligible only with a confirmed country, never a conflicting country |
| AssessmentHistory.EligibleAreScored | app/modules/acquisition/service.py:1209-1243 | In every reachable state the columns of an eligible candidate hold a priority from 80 to 92 in band B; the lead of its promotion takes priority and band from them, and fit, intent, quality and the reference from the latest stored assessment |
| AssessmentHistory.RecordsAreKept | app/modules/acquisition/models.py:209-221 | In every reachable state evidence is unique per content and assessments per version; from any earlier state on evidence rows are only added and support no less, and assessments are added and never changed |
| AssessmentHistory.StoredIsCurrentIff | app/modules/acquisition/jobs.py:619-656 | The columns always say what was computed; the stored assessment of that version does exactly if none was stored before or the stored one has the same signals and gate answer |
| AssessmentHistory.LatestIsCurrentIff | app/modules/acquisition/repository.py:309-321 | What the reader of the latest assessment sees is what was just computed, exactly if a new row was stored at no earlier a time than all others, or the latest row already said the same |
| AssessmentHistory.CommittedImportIsCurrent | app/modules/acquisition/service.py:1538-1574 | An import that commits leaves the stored assessment of its version equal to what was computed |
| AssessmentHistory.CommittedOverrideIsCurrent | app/modules/acquisition/service.py:1151-1164 | So does a country override that commits |
| AssessmentHistory.EligibleAreBacked | app/modules/acquisition/jobs.py:619-665 | In every run in which no job kept a differing assessment of a candidate, an eligible candidate has a stored assessment that found it eligible and gives exactly its columns |
| AssessmentHistory.OverlookedAssessmentReachesLead | app/modules/acquisition/jobs.py:619-665 | From the empty state, for any company: two verifications of one page, the second of which tells the country, leave an eligible candidate with the assessment of the first, and its lead has the fit 83 or 85 instead of 87 or 92 |
| AssessmentHistory.SamePageOverrideIff | app/modules/acquisition/service.py:1062-1164 | From the empty state: a discovered company whose page was stored without extracting facts waits for its country, and confirming it by a page changes nothing exactly if it is that page |
| CandidateHistory.DecisionsAreFinal | app/modules/acquisition/states.py:174-197 | In any state no transaction takes a candidate out of rejected or promoted, and accepted leads only to promoted |
| CandidateHistory.DecidedForever | app/modules/acquisition/states.py:174-197 | So a decision lasts to the end of every run |
| CandidateRows.ConcludedOk | app/modules/acquisition/service.py:1513-1595 | An assessment makes a candidate eligible only with a confirmed country, and then with columns that say so |
| CandidateHistory.OneLeadPerCandidate | app/modules/acquisition/service.py:1200-1257 | At most one lead comes from a candidate, the one it points to, with exactly one history entry while it exists |
| CandidateHistory.NewLeadIsUnique | app/modules/acquisition/service.py:1203-1243 | The unique constraint on the candidate of a lead never fires |
| CandidateHistory.PromotingAgainAddsNothing | app/modules/acquisition/service.py:1174-1187 | Promoting again, after anything but deleting the lead, changes nothing and names the same lead |
| CandidateHistory.WritingPromotionIff | app/modules/acquisition/service.py:1011-1030 | Exactly when a promotion writes; it then has a confirmed country unless the candidate was promoted before, its lead is gone and its stored country is not confirmed |
| CandidateHistory.PromotionsAreConfirmed | app/modules/acquisition/service.py:1011-1030 | Where no lead is deleted, every promotion that writes has a confirmed country |
| CandidateHistory.RePromotionLosesCountryIff | app/modules/acquisition/service.py:1598-1612 | Import, promote, delete the lead, import without a country: the next promotion writes a lead with an unknown country exactly if the second import is of another provenance or brings a page the first did not |
| CandidateHistory.SecondImportRefusedIff | app/modules/acquisition/service.py:1567-1574 | Otherwise the second import meets the stored assessment of its version, which differs, and is refused |
| CandidateHistory.SomeImportIsEligible | app/modules/acquisition/service.py:637-726 | Into any undecided candidate, an import with country, buyer, company name, domain, claim and e-mail makes it eligible unless a stored assessment of the same version differs, in which case nothing changes; a new candidate never refuses |
| CandidateHistory.AcceptIff | app/modules/acquisition/service.py:784-807 | Accepting commits exactly for an eligible candidate with a domain, and is its promotion signed with author, time and note |
| CandidateHistory.BulkAcceptIff | app/modules/acquisition/service.py:915-1008 | A bulk acceptance commits exactly for 1 to 20 distinct acceptable candidates, promotes each, touches no other, and equals the single acceptances in order |
| CandidateHistory.DiscoveryCounts | app/modules/acquisition/jobs.py:294-367 | Each hit is counted once, created candidates are new rows with the triaged among them, and those to verify are distinct, within budget, companies and marked |
| CandidateTables.CandidateStore.AssessCandidate | app/modules/acquisition/jobs.py:619-665 | The assessment is stored unless one of its version is, the columns in any case, the automated decision only unless a human one has won |
| CandidateTables.CandidateStore.AssessInSession | app/modules/acquisition/service.py:1513-1595 | Inside another transaction: refused exactly if a stored assessment of the same version differs, else concluded in the same way |
| CandidateMeaning.GateMeans | app/modules/acquisition/assessment.py:62-96 | The stored facts that reject a candidate, that leave it in doubt, and that make it eligible, with the first reason |
| CandidateMeaning.EvidenceSignalsMean | app/modules/acquisition/assessment.py:57-119 | Trust, recency and independence are those of the items that count: the best tier, any at all, and one or more pages |
| CandidateMeaning.ConclusionMeans | app/modules/acquisition/service.py:1513-1595 | What a conclusion writes, and that a human decision keeps status and code |
| CandidateMeaning.AssessmentDecides | app/modules/acquisition/service.py:1513-1595 | Which stored facts make an assessed candidate rejected, in need of evidence or eligible, with the code |
| CandidateMeaning.ConflictMeans | app/modules/acquisition/service.py:1549-1590 | A conclusion is refused exactly if a stored assessment of the same prompt, model and usable content says something else |
| CandidateMeaning.BundleMeans | app/modules/acquisition/assessment.py:122-128 | The version holds each valid or unverified content of the evidence once |
| CandidateMeaning.LatestMeans | app/modules/acquisition/repository.py:309-321 | The latest assessment has the greatest time |
| CandidateTables.CandidateStore.PersistUrlCandidate | app/modules/acquisition/service.py:637-726 | Find or add the candidate of the page, replace its facts, add the fetched pages to its evidence, assess it; refused, with nothing written, exactly for a stored candidate whose assessment of that version differs |
| CandidateMeaning.ImportedPagesMean | app/modules/acquisition/service.py:672-717 | After an import every earlier row supports what it did and what the pages of its content claim; a new content is valid, of the highest tier, and supports what its pages claim |
| CandidateMeaning.UpsertsMean | app/modules/acquisition/service.py:637-726 | An import changes the candidate of its mission and key or adds a new one, and touches no other; so do a hit and a conversion |
| CandidateTables.CandidateStore.OverrideCandidateCountry | app/modules/acquisition/service.py:1066-1164 | Exactly a candidate waiting for country evidence whose assessment of that version does not differ gets a confirmed country with its evidence and is assessed again |
| CandidateMeaning.CountryPageMeans | app/modules/acquisition/service.py:1098-1140 | Country evidence makes its content valid, of the highest tier, and a support of the country; other rows stay |
| CandidateTables.CandidateStore.MarkVerifyingIfNeedsEvidence | app/modules/acquisition/repository.py:217-231 | One conditional row update, reporting whether it matched |
| CandidateTables.CandidateStore.PromoteInSession | app/modules/acquisition/service.py:1167-1276 | Refusal, the existing lead, or company, lead, candidate and history written together |
| PromotionMeaning.PromotionIff | app/modules/acquisition/service.py:1167-1190 | Exactly when a candidate is promoted, and when that changes nothing |
| PromotionMeaning.PromotionWrites | app/modules/acquisition/service.py:1189-1257 | A promotion that writes creates a lead exactly if no stored lead has the e-mail, or, without one, none is made from the candidate; it ends with the named lead holding that e-mail, every earlier lead unchanged, the company of the domain, and one history entry |
| CandidateTables.CandidateStore.PromoteCandidate | app/modules/acquisition/service.py:1011-1030 | The promotion as a transaction of its own |
| CandidateTables.CandidateStore.ReviewCandidate | app/modules/acquisition/service.py:768-825 | Accept, reject or request evidence with their guards, reason, author, time and note; a refused promotion rolls the acceptance back |
| PromotionMeaning.RefusalsMean | app/modules/acquisition/service.py:768-825 | Exactly when a rejection or a request for evidence commits, and what it writes |
| PromotionMeaning.AcceptanceMeans | app/modules/acquisition/service.py:768-825 | In any state, reachable or not, exactly when an acceptance commits, and which promotion it is |
| CandidateTables.CandidateStore.BulkReviewCandidates | app/modules/acquisition/service.py:915-1008 | All rows checked before any is changed and signed, all or nothing |
| PromotionMeaning.BulkRejectionMeans | app/modules/acquisition/service.py:915-1008 | A bulk rejection needs a reason and 1 to 100 different candidates that a single one would reject; it rejects and signs them and touches nothing else |
| PromotionMeaning.BulkAcceptanceNeeds | app/modules/acquisition/service.py:915-1008 | In any state a bulk acceptance needs 1 to 20 different eligible candidates of confirmed country |
| CandidateTables.CandidateStore.DiscoverCandidates | app/modules/acquisition/jobs.py:294-367 | The loop over the hits, with their evidence, its counters, the triaged ones included, and its list of candidates to verify |
| DiscoveryMeaning.SearchMeans | app/modules/acquisition/jobs.py:294-367 | Every hit with a domain is evidence of the one candidate of its mission and domain; which candidates are new, claimed, left unclaimed and listed, and what is counted |
| RadarDiff.GroupFacts | app/modules/radar/diff.py:96-102 | The grouping loop collects, for every text key, its values in order |
| RadarDiff.ReadFacts | app/modules/radar/diff.py:91-115 | The fact map: malformed snapshots and entries are passed over, values of one key sorted by canonical text |
| RadarMeaning.FactMapMeans | app/modules/radar/diff.py:91-115 | The keys of the map, and that a key with one value maps to it and a key with several to their list |
| RadarDiff.FactOrderIsIrrelevant | app/modules/radar/diff.py:103-115 | Permuting the list of facts changes nothing |
| RadarDiff.PatchGivesTarget | app/modules/radar/diff.py:21-29 | Patching the old map gives the new one up to runtime equality, and the new one itself exactly if no change hides behind that equality |
| RadarDiff.ReversePatchGivesSource | app/modules/radar/diff.py:21-29 | The reverse patch gives the old map, under the same condition |
| RadarDiff.SwapReverses | app/modules/radar/diff.py:18-40 | Swapping the snapshots swaps added with removed and the sides of each change |
| RadarDiff.EmptyIff | app/modules/radar/diff.py:18-40 | The delta is empty exactly if the maps are equal for the runtime; patching leaves no delta to the target |
| RadarDiff.ChangeWithoutDelta | app/modules/radar/diff.py:25-29 | A fact that goes from 1 to true leaves an empty delta |
| RadarDiff.PermutedSnapshotsHaveNoDelta | app/modules/radar/diff.py:18-40 | Two snapshots of the same facts in any order have an empty delta |
| RadarDiff.DetectBaselineDrift | app/modules/radar/diff.py:43-88 | Counts, and for each reason the exact condition under which it is given |
| RadarMeaning.TotalLossMeans | app/modules/radar/diff.py:71-86 | The measured loss is the number of facts the common pages had, the number of those that are gone, and the kinds of the pages that lost one |
| RadarMeaning.DriftTestsMean | app/modules/radar/diff.py:65-87 | Half of the pages, six of ten facts, and two kinds |
| RadarDiff.TotalTakesAnyPage | app/modules/radar/diff.py:76-85 | The measured loss does not depend on the order in which the pages are taken |
| RadarDiff.VanishedNeedsLosses | app/modules/radar/diff.py:86-87 | Facts count as vanished only if two common pages of different kinds have each lost one |
| RadarScan.PlanPages | app/modules/radar/snapshots.py:55-126 | The two planning loops with their set of seen URLs; a bad configured page fails the plan only if it is reached |
| ScanMeaning.PlanMeans | app/modules/radar/snapshots.py:55-126 | The plan follows the configured and then the observed links in order, each URL once, until it is full: its length and the place of every page; it fails exactly without a home page or at a refused configured link within reach |
| RadarScan.PlanIsSound | app/modules/radar/snapshots.py:55-126 | A plan starts with the home page, has distinct URLs within the limit, and leaves no link out unless it is full |
| RadarScan.MergePlans | app/modules/radar/jobs.py:350-359 | The merging loop |
| RadarScan.MergeKeepsPlan | app/modules/radar/jobs.py:350-359 | Merging keeps the plan as a prefix, with distinct URLs, within the limit, adds only planned pages and all that fit |
| RadarScan.Scan | app/modules/radar/jobs.py:52-154 | With a limit of 1 to 25 pages from the budget, planning fails or the pages of the plan are scanned |
| ScanMeaning.PageLimitMeans | app/modules/radar/jobs.py:52-52 | The limit is the number of the budget forced into 1 to 25, and 10 without one |
| RadarScan.ScanPages | app/modules/radar/jobs.py:78-154 | The loop ends within the limit, and finished, interrupted or failed, its outcome is the exact result of the turns taken, one per fetched URL |
| ScanMeaning.FinishedScanMeans | app/modules/radar/jobs.py:78-154 | After a valid home page every resolved link of its site is fetched unless the limit is reached; without one exactly the first plan is; status, numbers, records and reasons are those of what happened to the pages |
| ScanMeaning.UnfinishedScanMeans | app/modules/radar/jobs.py:61-145 | A scan ends early exactly for a plan that fails, a cancelled run, or a valid home page whose site cannot be planned again |
| RadarScan.ProgressIsSound | app/modules/radar/jobs.py:78-145 | After every page valid plus invalid pages are the pages consumed, each with one record of its own page; the plan only grows at its end |
| RadarScan.NoUrlFetchedTwice | app/modules/radar/jobs.py:78-145 | No URL is fetched twice although the plan grows |
| RadarScan.StatusTellsPages | app/modules/radar/jobs.py:149-154 | At least one page is consumed; succeeded exactly if all were valid, failed exactly if none was |
| RadarRuns.OneActiveRunPerProfile | app/modules/radar/service.py:295-389 | In every reachable table the active key is held exactly by queued and running runs, at most one per profile; no two runs share a job, and no cancelled run has a live notification |
| RadarRuns.CancelledStays | app/modules/radar/jobs.py:264-303 | The row of a cancelled run is never written again, no terminal run becomes active again, and only a late finish changes its status |
| RadarRuns.TerminalRewrittenIff | app/modules/radar/jobs.py:264-303 | A terminal run changes its status exactly by a handler that finishes it with another status, unless it was cancelled |
| RadarRuns.LateFinishRewritesFailure | app/modules/radar/jobs.py:713-735 | A concrete run: released as failed with its job, then reported as succeeded |
| RadarRuns.CancelReleases | app/modules/radar/service.py:392-438 | In every reachable table, cancelling an active run frees its profile, leaves its job inactive and its notification not live, and touches no other run or job |
| RadarRuns.RunTable.RequestRun | app/modules/radar/service.py:295-389 | A request is refused for an inactive profile or mission; else it returns the active run of the profile or adds one with its job |
| RadarMeaning.RequestMeans | app/modules/radar/service.py:295-389 | In every reachable table a request adds a run and its job exactly if it is allowed and no run of the profile is queued or running |
| RadarRuns.RunTable.StartRun | app/modules/radar/jobs.py:206-253 | The conditional start of a queued run by its own job; a cancelled run is returned, a run of another job refused |
| RadarRuns.RunTable.FinishRun | app/modules/radar/jobs.py:264-303 | Summary and status are written and the run released, unless it was cancelled |
| RadarRuns.RunTable.CancelRun | app/modules/radar/service.py:392-438 | An active run is cancelled and released, with its active job and its live notification |
| RadarRuns.RunTable.NotifyRun | app/modules/radar/jobs.py:561-615 | At most one notification per run, and none for a cancelled one |
| RadarRuns.RunTable.FinalizeWorkerFailure | app/modules/radar/jobs.py:713-735 | The active run of a failed job is failed and released |

## Left out

- Routes, templates, forms, health checks, logging, configuration, capability flags and migrations.
- Search and analysis providers, HTTP, DNS, the queue server, the browser, spreadsheets and HTML parsing: their
  answers are parameters.
- Digests, encryption and identifiers: the two digests of an inbound request and fresh claim tokens are values.
- Regular expressions: e-mail and domain normalisation, the test of excluded business terms and the classification
  of pages and entities are parameters.
- Inbound leads edited or deleted in the CRM between two inbound requests, and the older pair of routines
  `store_idempotency` and `process_inbound`, which nothing calls.
- Audit events, presentation texts (labels, titles, excerpts, target URLs) and the derived counters of the stored
  retrospective.
- The text of an explanation: it is a function of the stored gate answer and version.
- Concurrent promotions that lose a unique constraint and are tried again: transactions are serializable here.
- RadarDiff: the numbers NaN and infinity, which the parser of the source accepts, are not values of the model; the
  canonical text of a value is an arbitrary injective function.
- CandidateLifecycle: converting a competitor relationship is its effect on candidates; the checks of the
  relationship, its run and its snapshot are not part of this model.
- RadarScan: change signals and relationships after the loop; a page is recorded by its kind and validity.
- RadarRuns: the states of profile and mission are one flag of a request, and whether an outcome is worth a
  notification is left to the caller.
- The retry of a verification is split: MissionReconcile has its mission and notifications, CandidateLifecycle its
  candidate, and JobLifecycle its job.
- Browser runs, CSV import of leads, mission planning, cost records and suggestions would only add easy members.
