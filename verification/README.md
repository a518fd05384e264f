# Claudey coordination cores

Claudey is an asyncio proxy in front of several model providers. This project models the
parts of it where many tasks share state, and proves what they guarantee together:

- **Provider admission** (`AdmissionGate`, `AdmissionMachine`, `AdmissionInvariant`,
  `AdmissionHistory`, `AdmissionLedger`, `AdmissionTheorems`, `AdmissionAnswers`,
  `AdmissionFlow`, `AdmissionController`): recovery
  episodes with generations, an elected leader, a single half-open probe, waiters, a terminal
  quarantine, an auth latch, attempt budgets and a concurrency semaphore; below it the strict
  sliding window (`RateLimit`).
- **Provider generations** (`Generations`, `ManagerMachine`, `ManagerInvariant`,
  `ManagerTheorems`, `ManagerHolders`, `ManagerCleanup`, `ManagerReplace`, `ManagerOrder`,
  `ProviderManager`): hot swap with leases, retirement,
  retryable cleanup and shutdown drain.
- **Pending voice notes** (`VoiceRegistry`, `VoiceMachine`, `VoiceTheorems`, `PendingVoice`):
  two keys per entry, identity-checked removal, and protection against callbacks that cancel
  each other.
- **Failover over health** (`Health`, `LastKnownGood`, `HealthRegistry`, `Failover`) and
  **stream holdback** (`StreamRecovery`).
- **Delivery and fencing** (`DeliveryQueue`, `DeliveryMachine`, `DeliveryTheorems`,
  `MessagingLimiter`, `Workflow`, `MessagingWorkflow`): the compacting queue with its worker,
  callers and shutdown, and the generation tokens that fence admissions against stop and clear.

## How it is modelled

A stretch of a coroutine between two awaits, and a block under a lock, is one atomic step of
a state machine. Every task has an explicit program counter; a run is any sequence of steps
of any tasks; a step that is not due changes nothing. Cancellation is a step at every await.
The theorems are about every run.

Beside the machines stand classes with the source's own mutable fields. Their methods are the
locked blocks and loops of the source. Each block that a machine interleaves is proved equal to
the function the machine uses for it, or to a run of the machine's steps. The loops that no
machine interleaves (the sliding window, the retry loop of one operation, the failover stream,
startup probing) are proved against what they promise directly.

Assumptions:

- A retry session is used by one logical execution at a time, so it has at most one
  outstanding attempt.
- Clocks never run backwards; one stretch between awaits sees one instant, except where the
  model reads the clock several times on purpose (the sliding window, the holdback, the
  failover look-ahead). A sleep never returns early.
- A started abandon or cleanup step runs to its end.
- A background model refresh is started at startup only, as
  `src/claudey/runtime/application.py:156` does, or more generally not while the replace lock's
  owner is past cancelling the running refresh. `LateRefreshBreaksSafety` shows what would
  happen otherwise.
- An asyncio lock that is free is taken without suspending. The locks of the admission
  condition, the delivery condition and the voice registry are never held across a suspension
  (a condition's `wait()` gives its lock back), so taking them is no await: what a coroutine
  does before such a lock and under it is one step. The locks of the provider manager and of
  the messaging workflow are held across awaits, and their owners have program counters.
- Where an abandon is due after a cancellation or a refused permit, other tasks may run first.
  That is more than the code allows; what is proved of all runs holds of its runs.
- Inputs are uninterpreted where the source calls code outside these cores: whether an error
  is retryable or an auth lockout, its Retry-After value, the jitter drawn, what a provider
  streams and how it ends, whether a cleanup, a probe or a tree operation succeeds.

One place where the code does less than its names suggest: a model lockout is extended from its
old expiry, not from the time of the reject, so a late reject may not lock anything.
`RejectLocksIff` gives the exact condition and `LateRejectDoesNotLock` an example.

## Model

| member | source | states |
|---|---|---|
| `AdmissionTheorems.SingleProbe` | src/claudey/providers/admission.py:318-391 | in every state of every interleaving with cancellation at any await: an episode has `probe_active` exactly when some session is answerable for an unresolved probe of that generation; that session is the leader, and it is answerable only once |
| `AdmissionTheorems.ClaimIsTheProbe` | src/claudey/providers/admission.py:260-283 | an attempt that starts while an episode is open is that episode's probe, claimed by its leader while `probe_active`, never during a quarantine; otherwise it is a normal one |
| `AdmissionTheorems.NoLostWakeup` | src/claudey/providers/admission.py:342-366 | a session that sleeps on the condition and was not notified waits for an open episode of the generation it saw, as a waiter or for its own probe; nobody is left waiting for an episode that is gone |
| `AdmissionTheorems.Conservation` | src/claudey/providers/admission.py:65-69 | free slots plus unclosed attempts always equal `max_concurrency`; no session starts more than `max_attempts`; inside `open_attempt` the budget is never used up, so `_claim_attempt` cannot raise |
| `AdmissionTheorems.ProbesWithinOneBudget` | src/claudey/providers/admission.py:534-588 | an episode whose leadership was never given up makes at most `max_attempts` probes, however many sessions wait |
| `AdmissionTheorems.StaleReport` | src/claudey/providers/admission.py:452-588 | success, correction, rejection, abandonment or failure reported by anything but the matching probe leaves the episode's generation, leader, probe flag, `ready_at`, error and quarantine alone, and adds at most that session to the waiters |
| `AdmissionTheorems.StaleDrop` | src/claudey/providers/admission.py:685-699 | dropping a permit that is not the matching probe changes nothing; the session then leaves or enters the gate like anybody else |
| `AdmissionTheorems.StaleDetached` | src/claudey/providers/admission.py:518-532 | an abandon that finishes after its caller was cancelled changes nothing unless its probe still matches |
| `AdmissionTheorems.StaleForever` | src/claudey/providers/admission.py:643-683 | a probe that does not match now matches in no later state: generations are never reused |
| `AdmissionTheorems.ExecuteFrame` | src/claudey/providers/admission.py:643-667 | over any run time, generation counter and log only grow, and the open episode is either the earlier one or has a generation not handed out before |
| `AdmissionTheorems.NoEarlyProbe` | src/claudey/providers/admission.py:349-388 | after a retryable failure at t that opened an episode or was its probe, no attempt of that episode starts before t plus the computed delay, which is at least the Retry-After value (section 10.2.3 of RFC 9110), although `ready_at` is not read again after the sleep |
| `AdmissionTheorems.SharedExhaustion` | src/claudey/providers/admission.py:318-391 | when the leader's budget runs out the episode is terminal with no leader, no probe and no waiters, every session that was waiting carries the leader's error, and in no continuation of any run does one of them ever start another attempt |
| `AdmissionTheorems.QuarantineIsEmpty` | src/claudey/providers/admission.py:580-588 | in every reachable state a terminal episode has no leader, no active probe and no waiters |
| `AdmissionTheorems.BarredForever` | src/claudey/providers/admission.py:318-324 | a session that carries a terminal error and has the check still before it spends no budget again, however the run goes on |
| `AdmissionTheorems.NeverClaims` | src/claudey/providers/admission.py:318-324 | nor does it appear among the claims of the run's history again |
| `AdmissionAnswers.Lockout` | src/claudey/providers/admission.py:426-442 | after an auth lockout at t the episode is gone, and in every continuation that neither lifts nor renews it, whoever comes to the gate before t plus its time to live, by opening an attempt, waking up, ending its sleep or dropping a permit, is raised that error (or an earlier one of its own) and stays outside; from then on a session without an error of its own gets in unless a quarantine runs |
| `AdmissionAnswers.RefusedExactly` | src/claudey/providers/admission.py:318-335 | the gate raises the session's own terminal error, else the lockout's while that lasts, else the quarantined episode's while that lasts, and otherwise nothing |
| `AdmissionAnswers.EnteringAnswer` | src/claudey/providers/admission.py:318-340 | whichever of the four ways a session takes to the gate, it ends up outside for exactly those three reasons |
| `AdmissionAnswers.ExhaustionQuarantine` | src/claudey/providers/admission.py:568-588 | after a failure at t that uses up the budget with delay d, at least its Retry-After value, the episode stands in every continuation until t + d unless a lockout drops it; while it stands and t + d is not reached whoever comes is refused with that error (or its own, or a lockout's); from t + d on the first session that comes without an error of its own and without a lockout leads an episode with a fresh generation and may probe at once |
| `AdmissionAnswers.NoAttemptInQuarantine` | src/claudey/providers/admission.py:410-424 | no attempt starts while an episode is quarantined, not even by a session that had passed the gate before |
| `AdmissionFlow.SuccessReopens` | src/claudey/providers/admission.py:452-466 | a successful probe ends the episode and lifts a lockout: everyone waiting is notified and the next to come, whoever it is and however it comes, gets an ordinary permit unless it carries an error of its own |
| `AdmissionFlow.RejectionReopens` | src/claudey/providers/admission.py:493-506 | so does a rejected probe, except that a lockout stays in force and keeps the next one out until it expires, when it is forgotten |
| `AdmissionFlow.CorrectionProbesAgain` | src/claudey/providers/admission.py:478-491 | after a correction the same leader, closing its attempt and opening another at the same moment, holds the probe of the same generation again |
| `AdmissionFlow.AbandonmentHandsOver` | src/claudey/providers/admission.py:518-532 | a probe abandoned by closing, by an abandon that outlived its caller, or by leaving before the attempt started leaves the episode without leader and due now: everyone waiting is notified, and whoever comes first holds the probe at once |
| `AdmissionFlow.LeaderGivesUp` | src/claudey/providers/admission.py:701-716 | a leader cancelled in its sleep leaves the episode to whoever comes first, who sleeps until the same probe time or probes if that is past |
| `AdmissionFlow.CancelledSleeper` | src/claudey/providers/admission.py:385-391 | and it does so whenever it is cancelled while its episode is open |
| `AdmissionFlow.CancelledWaiter` | src/claudey/providers/admission.py:358-365 | a cancelled waiter is no longer counted by the episode it waited for, and nothing else changes |
| `AdmissionFlow.SleepEndsInProbe` | src/claudey/providers/admission.py:374-388 | a leader whose sleep ends while its episode is still open always holds the probe |
| `AdmissionFlow.FailureLeads` | src/claudey/providers/admission.py:550-567 | a retryable failure with budget left, of the probe or with no episode open, makes its session the leader with that error: coming back it sleeps exactly until the failure plus the delay, or probes if that is zero, and anybody else waits |
| `AdmissionFlow.LateFailure` | src/claudey/providers/admission.py:563-568 | a failure that comes too late for its episode makes its session share the quarantine's error or wait for the episode now open; with the budget used up it changes nothing |
| `AdmissionFlow.PermitIsGood` | src/claudey/providers/admission.py:410-424 | in every reachable state a granted permit passes the limiter and, with a free slot and budget, starts exactly one attempt, exactly if the episode it was granted for is still the open one (or there still is none); otherwise it is dropped without a slot and the session comes to the gate again |
| `AdmissionLedger.RunInv` | src/claudey/providers/admission.py:260-391 | the whole inductive invariant (gate, sessions, budgets, slots, probe times, probe counts) holds in every reachable state |
| `AdmissionLedger.StepInv` | src/claudey/providers/admission.py:260-391 | and every single step of every task keeps it |
| `AdmissionInvariant.RelyKeeps` | src/claudey/providers/admission.py:318-391 | what a session may assume while it awaits survives every locked block of every other session |
| `AdmissionInvariant.EnterGuarantee` | src/claudey/providers/admission.py:327-366 | the gate's locked block changes for the others only what they rely on not changing |
| `AdmissionInvariant.FailGuarantee` | src/claudey/providers/admission.py:534-588 | so does a failure report, with its hand-over to waiters and its quarantine |
| `AdmissionGate.RetryDelayBounds` | src/claudey/providers/admission.py:721-726 | the delay is never below Retry-After and never below the base delay times two to the power of attempt minus one, capped at `max_delay`, plus the jitter; and it is the largest of these, so never above both `max_delay` plus jitter and Retry-After |
| `AdmissionGate.RetryDelayMonotone` | src/claudey/providers/admission.py:721-726 | with the same jitter a later attempt waits at least as long |
| `AdmissionGate.DoubledIsPower` | src/claudey/providers/admission.py:721-723 | doubling step by step is the base delay times two to the power of the exponent |
| `AdmissionController.ProviderAdmissionController.CheckBeforeLock` | src/claudey/providers/admission.py:319-324 | the checks before the lock, with the expired auth latch cleared, equal their specification on the whole gate |
| `AdmissionController.ProviderAdmissionController.WaitForGate` | src/claudey/providers/admission.py:327-366 | the gate's locked block on the mutable episode equals its specification |
| `AdmissionController.ProviderAdmissionController.ResumeAfterSleep` | src/claudey/providers/admission.py:378-388 | the second look after the sleep grants the probe only to the leader of the same live generation |
| `AdmissionController.ProviderAdmissionController.CancelWaiter` | src/claudey/providers/admission.py:358-365 | a cancelled waiter leaves the set of the generation it joined and no other |
| `AdmissionController.ProviderAdmissionController.CancelSleepingLeader` | src/claudey/providers/admission.py:701-716 | a cancelled sleeping leader gives up leadership only of its own generation and only without an active probe |
| `AdmissionController.ProviderAdmissionController.AttemptSucceeded` | src/claudey/providers/admission.py:452-466 | only the matching probe closes the episode and the latch |
| `AdmissionController.ProviderAdmissionController.AttemptCorrected` | src/claudey/providers/admission.py:478-491 | only the matching probe frees itself at once |
| `AdmissionController.ProviderAdmissionController.AttemptRejected` | src/claudey/providers/admission.py:493-506 | only the matching probe closes the episode; the latch stays |
| `AdmissionController.ProviderAdmissionController.AttemptAbandoned` | src/claudey/providers/admission.py:518-532 | only the matching probe gives up leadership and probe |
| `AdmissionController.ProviderAdmissionController.LatchAuthRejection` | src/claudey/providers/admission.py:436-442 | the latch is set for its time to live and the episode dropped |
| `AdmissionController.ProviderAdmissionController.AttemptFailed` | src/claudey/providers/admission.py:534-588 | all five branches of a retryable failure, with the loop that hands the error to the waiters, equal the specification |
| `AdmissionController.ProviderAdmissionController.FailAll` | src/claudey/providers/admission.py:584-586 | the loop marks exactly the waiters |
| `AdmissionController.ProviderAdmissionController.Retry` | src/claudey/providers/admission.py:137-169 | a failure is reported to the gate exactly once, as a rejection, after the latch for a lockout, or as a retryable failure; the answer is retry exactly when it is retryable and the session has budget left, whose count no report changes |
| `AdmissionController.ProviderAdmissionController.ClaimAttempt` | src/claudey/providers/admission.py:65-69 | one more attempt started, unless the budget is used up |
| `AdmissionController.ProviderAdmissionController.OneRound` | src/claudey/providers/admission.py:299-316 | one turn on the gate's own sessions, whatever other tasks did to the gate during its awaits: an admitted one counts one attempt and reports success, cancellation or failure to the gate as it is by then, exactly once |
| `AdmissionController.ProviderAdmissionController.RunWithRetry` | src/claudey/providers/admission.py:290-316 | on the gate's own budget, whatever other tasks do meanwhile: `fn` is called exactly as often as attempts were started and at most `max_attempts` times, every call but the last failed retryably, a retryable failure is raised only with the budget used up, and the exhausted-session error never occurs |
| `RateLimit.StrictSlidingWindowLimiter.TryAcquire` | src/claudey/core/rate_limit.py:43-60 | the locked pass admits, refuses or asks for a wait exactly by the number of admissions still in the window; a refusal adds nothing; the strict promise over the whole history and the deque being its suffix are kept; the wait is positive and enough |
| `RateLimit.StrictSlidingWindowLimiter.Acquire` | src/claudey/core/rate_limit.py:43-65 | without a competitor one sleep always suffices |
| `RateLimit.StrictSlidingWindowLimiter.DropExpired` | src/claudey/core/rate_limit.py:47-51 | the deque becomes exactly the suffix of the history inside the window |
| `RateLimit.AdmissionKept` | src/claudey/core/rate_limit.py:53-57 | recording with fewer than `rate_limit` in the window keeps admission i + `rate_limit` a window after admission i |
| `RateLimit.WindowBound` | src/claudey/core/rate_limit.py:11-13 | the documented promise: any half-open window, wherever it starts, holds at most `rate_limit` admissions |
| `RateLimit.AfterIsSuffix` | src/claudey/core/rate_limit.py:50-51 | what is kept is a suffix of the history, everything before it has left the window |
| `RateLimit.WaitIsEnough` | src/claudey/core/rate_limit.py:59-60 | after the computed wait at least one admission has left a full window |
| `RateLimit.WaitIsLeast` | src/claudey/core/rate_limit.py:59-60 | no shorter wait would do |
| `ManagerTheorems.ReclamationSafety` | src/claudey/runtime/provider_manager.py:318-349 | over any run: `active_leases` is the number of leases and running refreshes, `drained` says whether it is zero, a generation whose cleanup was asked for, runs or ended is held by nobody, and the current one retires only while closing |
| `ManagerTheorems.HolderIsServed` | src/claudey/runtime/provider_manager.py:80-84 | what a lease or refresh holds is not closed and not being cleaned up |
| `ManagerHolders.HeldBecause` | src/claudey/runtime/provider_manager.py:129-135 | over any run the holders of generations are exactly the leases handed out and not yet released, on the generation that was current then, the background refreshes that run, and the explicit refresh that owns the lock: no hold ever leaks |
| `ManagerTheorems.LeaseServed` | src/claudey/runtime/provider_manager.py:129-135 | until a shutdown begins a lease is always given, on the current generation, and giving it back at once leaves the manager as it was; afterwards none is given |
| `ManagerTheorems.Lifecycle` | src/claudey/runtime/provider_manager.py:237-286 | every published generation is exactly one of current, in `_retired`, or closed; closed exactly when its cleanup succeeded |
| `ManagerTheorems.ClosedForever` | src/claudey/runtime/provider_manager.py:421-474 | after a successful cleanup a generation stays closed and no cleanup of it ever runs again |
| `ManagerCleanup.CleanupRuns` | src/claudey/runtime/provider_manager.py:421-474 | over any run a cleanup of a generation is running exactly when its last start has not been followed by its end: never two at once, none that was not started |
| `ManagerCleanup.FailedCleanupIsRetried` | src/claudey/runtime/provider_manager.py:431-474 | a cleanup that failed leaves its generation retired, open and without a task, and in every continuation, until another one starts, the next shutdown that comes to close the generation schedules a new cleanup, which can start |
| `ManagerCleanup.IdleIsReclaimed` | src/claudey/runtime/provider_manager.py:318-326 | over any run, until a shutdown begins, a retired generation that nobody holds has its cleanup scheduled, running or done unless one failed: whoever lets it go last has asked for it |
| `ManagerCleanup.ShutdownSchedules` | src/claudey/runtime/provider_manager.py:318-326 | once a shutdown has begun only its own close requests schedule a cleanup |
| `ManagerOrder.RefreshEndsFirst` | src/claudey/runtime/provider_manager.py:391-397 | a replacement, an explicit refresh and a shutdown cancel the refresh on record, and in no run do they move on before it is over |
| `ManagerOrder.RetriesBeforeBuilding` | src/claudey/runtime/provider_manager.py:237-250 | in every run a replacement builds its candidate only after it has tried again each runtime that was waiting for its cleanup when it began |
| `ManagerReplace.FailedReplace` | src/claudey/runtime/provider_manager.py:237-286 | however its refresh, its retried cleanups, its factory, its commit or a cancellation turn out, and whatever runs beside it, a replacement that does not commit leaves the current generation, the ids and the set of generations unchanged, and `_retired` has lost only generations whose own cleanup succeeded meanwhile |
| `ManagerReplace.FailedCandidate` | src/claudey/runtime/provider_manager.py:399-419 | a runtime that could not be published stays on `_unpublished` exactly until a cleanup of it succeeds, over any run of replacements, closes and cancellations |
| `ManagerReplace.CandidateListed` | src/claudey/runtime/provider_manager.py:245-260 | a candidate whose commit failed is put on `_unpublished`; one the factory could not build is nowhere |
| `ManagerTheorems.CloseIsComplete` | src/claudey/runtime/provider_manager.py:288-316 | when `close` returns normally every generation is closed and `_retired` and `_unpublished` are empty, whatever closes failed or were cancelled before |
| `ManagerTheorems.ClosedOnlyByShutdown` | src/claudey/runtime/provider_manager.py:288-316 | no other step sets `_closed` |
| `ManagerTheorems.RunInv` | src/claudey/runtime/provider_manager.py:129-474 | the whole invariant over every disciplined run |
| `ManagerInvariant.StepInv` | src/claudey/runtime/provider_manager.py:129-474 | kept by each step of acquire, release, refresh, replace, close and cleanup, with cancellation at any await |
| `ManagerTheorems.WindingDownReached` | src/claudey/runtime/provider_manager.py:178-187 | a reachable state in which a replacement waits for a refresh that is winding down |
| `ManagerTheorems.OvertakenReached` | src/claudey/runtime/provider_manager.py:178-187 | another refresh started at that moment is forgotten by the replacement |
| `ManagerTheorems.LateRefreshBreaksSafety` | src/claudey/runtime/provider_manager.py:178-187 | and then runs on a generation that is being cleaned up: why refreshes must start only at startup |
| `ProviderManager.ProviderRuntimeManager.Acquire` | src/claudey/runtime/provider_manager.py:129-135 | takes the current generation, unless closing, and counts the lease: on the whole manager, exactly the state machine's change |
| `ProviderManager.ProviderGenerationLease.Release` | src/claudey/runtime/provider_manager.py:80-84 | a lease gives its generation back once; a second release does nothing |
| `ProviderManager.ProviderRuntimeManager.ReleaseGeneration` | src/claudey/runtime/provider_manager.py:318-326 | the last lease of a retired generation asks for its cleanup unless closing |
| `ProviderManager.ProviderRuntimeManager.CloseGeneration` | src/claudey/runtime/provider_manager.py:421-438 | joins or schedules one cleanup, never while leased, never again once closed |
| `ProviderManager.ProviderRuntimeManager.FinishCleanup` | src/claudey/runtime/provider_manager.py:440-474 | success closes and forgets the generation, failure leaves it retryable: exactly the state machine's change |
| `ProviderManager.ProviderRuntimeManager.Publish` | src/claudey/runtime/provider_manager.py:262-286 | the new generation becomes current with a fresh id and its own background refresh, and the old one retires and is closed if idle: exactly the state machine's published manager |
| `ProviderManager.ProviderRuntimeManager.CancelRefresh` | src/claudey/runtime/provider_manager.py:391-397 | the refresh is forgotten, and awaited unless it is done |
| `ProviderManager.ProviderRuntimeManager.BeginShutdown` | src/claudey/runtime/provider_manager.py:293-295 | leases stop and the refresh is cancelled and, unless done, awaited |
| `ProviderManager.ProviderRuntimeManager.RetireCurrent` | src/claudey/runtime/provider_manager.py:296-301 | then the current generation retires and every retired one is to be drained: exactly the state machine's change |
| `ProviderManager.ProviderRuntimeManager.RetryUnpublishedCleanup` | src/claudey/runtime/provider_manager.py:399-419 | exactly the runtimes whose cleanup failed stay on `_unpublished` |
| `ProviderManager.LeaseRoundTrip` | src/claudey/runtime/provider_manager.py:318-326 | a lease taken and given back leaves a generation in use as it was, and hands a retired one to its cleanup exactly when it was the last |
| `VoiceTheorems.NoWaitCycle` | src/claudey/messaging/voice.py:193-252 | in every reachable state callbacks that cancel each other never wait in a circle, whatever mixture of `cancel`, `cancel_all` and `cancel_scope` they are inside |
| `VoiceTheorems.LaterAlongPath` | src/claudey/messaging/voice.py:193-252 | along any chain of waiting callbacks each selection is later than the one before |
| `VoiceTheorems.OneWinner` | src/claudey/messaging/voice.py:181-191 | for each claim at most one of discard, cancellation result and completed handoff ever happens, once, also when its voice id is reserved again |
| `VoiceTheorems.TwoKeyOwnership` | src/claudey/messaging/voice.py:89-123 | a live entry owns exactly its voice key and, once bound, its status key, in its own scope; an entry that is not live owns none |
| `VoiceTheorems.BulkCancelTakes` | src/claudey/messaging/voice.py:223-252 | in every reachable state a bulk cancellation takes exactly the live claims of its scope in whose callbacks no cancellation is running, reports each once, and waits for exactly those of their callbacks that have begun |
| `VoiceTheorems.CancelTakes` | src/claudey/messaging/voice.py:193-211 | so does the cancellation of one reply with the claim the reply leads to by either of its keys |
| `VoiceTheorems.CancellingStaysLive` | src/claudey/messaging/voice.py:344-366 | a live claim in whose callback a cancellation runs is ended by nothing but its own completion or discard |
| `VoiceTheorems.HandoffOnce` | src/claudey/messaging/voice.py:125-145 | over any run a handoff is accepted exactly for a live claim whose status message is bound and of which none was accepted before |
| `VoiceTheorems.CompletedWasHandedOff` | src/claudey/messaging/voice.py:264-270 | only a claim that was handed off is ever completed |
| `VoiceTheorems.CancelOneIsTheStep` | src/claudey/messaging/voice.py:193-211 | the registry's own cancellation of a reply is the machine's selection |
| `VoiceMachine.RunInv` | src/claudey/messaging/voice.py:89-376 | the invariant behind these over every run |
| `VoiceRegistry.ReserveOk` | src/claudey/messaging/voice.py:89-104 | a reservation succeeds exactly when the voice key is free and makes a new live entry |
| `VoiceRegistry.BindOk` | src/claudey/messaging/voice.py:106-123 | the first binding of a live entry succeeds exactly when nobody else owns the key, and gives it the key; binding it again to the same message succeeds and changes nothing, anything else is refused unchanged |
| `VoiceRegistry.RemoveIsExact` | src/claudey/messaging/voice.py:368-376 | removal pops exactly the entry's own keys and leaves none dangling |
| `VoiceRegistry.DiscardOk` | src/claudey/messaging/voice.py:181-191 | a release succeeds exactly on a live claim, takes its keys and nobody else's, and never succeeds twice |
| `VoiceRegistry.SelectedOnce` | src/claudey/messaging/voice.py:223-252 | a bulk cancel selects each live entry of the scope that is not excluded, once, whatever its number of keys |
| `VoiceRegistry.BulkCancelIsExact` | src/claudey/messaging/voice.py:223-252 | afterwards only excluded entries are left in the scope and other scopes are untouched |
| `PendingVoice.PendingVoiceRegistry.Reserve` | src/claudey/messaging/voice.py:89-104 | the locked block on the tables equals its specification |
| `PendingVoice.PendingVoiceRegistry.BindStatus` | src/claudey/messaging/voice.py:106-123 | so does binding, with every refusal |
| `PendingVoice.PendingVoiceRegistry.BeginHandoff` | src/claudey/messaging/voice.py:125-145 | so does the start of a handoff |
| `PendingVoice.PendingVoiceRegistry.RemoveEntry` | src/claudey/messaging/voice.py:368-376 | so does identity-checked removal |
| `PendingVoice.PendingVoiceRegistry.ReleaseOwnership` | src/claudey/messaging/voice.py:181-191 | so does discard, and the completion of a handoff |
| `PendingVoice.PendingVoiceRegistry.CancelReply` | src/claudey/messaging/voice.py:193-211 | so does cancelling one reply, with the message ids to delete |
| `PendingVoice.ResultDeletes` | src/claudey/messaging/voice.py:322-336 | a reply to the status message deletes that message alone; a reply to the voice note and a bulk cancellation delete both |
| `PendingVoice.PendingVoiceRegistry.CancelMatching` | src/claudey/messaging/voice.py:223-252 | so does the bulk cancel, with one result per selected entry |
| `PendingVoice.PendingVoiceRegistry.ProtectClaim` | src/claudey/messaging/voice.py:354-357 | protection is counted |
| `PendingVoice.PendingVoiceRegistry.UnprotectClaim` | src/claudey/messaging/voice.py:359-366 | and forgotten at zero |
| `Health.SplitAtFirstSlash` | src/claudey/application/health.py:106-109 | a reference splits at its first slash and nothing is lost |
| `Health.LastVerdictStands` | src/claudey/application/health.py:125-154 | a provider carries exactly the mark of the last operation that concerned it |
| `Health.Unconcerned` | src/claudey/application/health.py:125-154 | and none if no operation did |
| `Health.FailureReaches` | src/claudey/application/health.py:131-166 | what a failure changes for any node at any time: an authentication failure or an availability failure takes the whole provider out for its own cooldown and then leaves only lockouts, a rejected request concerns that one node, other providers and the last-known-good map stay as they were |
| `Health.SuccessReaches` | src/claudey/application/health.py:125-129 | what a success changes: its node is usable at any time from then on, the other models of the provider keep only their lockouts, other providers stay as they were |
| `Health.ProbeReaches` | src/claudey/application/health.py:213-219 | a failed startup probe takes exactly that provider out, for the startup cooldown |
| `Health.SkippedIffNotHealthy` | src/claudey/application/health.py:168-196 | in every reachable registry `should_skip` holds exactly when `effective_state` is not healthy |
| `Health.SkipOnlyEnds` | src/claudey/application/health.py:168-183 | while nothing is recorded a node can only become usable |
| `Health.LockRunsFromFirstReject` | src/claudey/application/health.py:67-78 | after n rejects with no success between, the lock expires at the first reject plus a closed form in n, whenever the later rejects came |
| `Health.RejectLocksIff` | src/claudey/application/health.py:156-166 | exactly when the latest reject leaves the node locked |
| `Health.LateRejectDoesNotLock` | src/claudey/application/health.py:75-78 | a concrete second reject that does not lock |
| `LastKnownGood.LkgpIsNewest` | src/claudey/application/health.py:200-205 | evicting as it goes keeps exactly the newest entries of the map without a capacity |
| `LastKnownGood.RemembersTheMostRecent` | src/claudey/application/health.py:200-209 | after any history a chain is remembered exactly while fewer than `lkgp_capacity` different chains were served after it, and then with the node that served it last |
| `LastKnownGood.UnusedIsForgotten` | src/claudey/application/health.py:207-209 | a chain not served since the last reset has no preference |
| `HealthRegistry.HealthRegistry.RecordSuccess` | src/claudey/application/health.py:125-129 | clears the provider's mark and the node's lock, nothing else |
| `HealthRegistry.HealthRegistry.RecordFailure` | src/claudey/application/health.py:131-166 | the three classes of kinds on the mutable tables equal the specification |
| `HealthRegistry.HealthRegistry.IsSkipped` | src/claudey/application/health.py:168-183 | the two expiry checks |
| `HealthRegistry.HealthRegistry.RecordLkgp` | src/claudey/application/health.py:200-205 | the eviction loop leaves the newest entries |
| `HealthRegistry.HealthRegistry.ValidateProviders` | src/claudey/application/health.py:221-244 | the loop probes the distinct providers once each, in order of first mention |
| `HealthRegistry.EachProviderOnce` | src/claudey/application/health.py:234-239 | every provider mentioned is probed, none twice |
| `HealthRegistry.ProvidersInOrder` | src/claudey/application/health.py:234-239 | in the order of their first mention: what the first references give comes first |
| `HealthRegistry.BackedOffIsExact` | src/claudey/application/health.py:239-244 | exactly the unreachable ones are marked down, from the moment of their probe |
| `Failover.OrderedNodes` | src/claudey/application/failover.py:221-233 | a permutation of the chain: the last-known-good node first, exactly when it is in the chain and usable now, the rest in chain order |
| `Failover.PrimaryRoute` | src/claudey/application/failover.py:106-127 | the first usable node, or the first node with its state when none is usable |
| `Failover.PreflightFirst` | src/claudey/application/failover.py:235-255 | the first usable node is the one preflighted |
| `Failover.NextTryable` | src/claudey/application/failover.py:212-219 | the first later node that is usable when asked, with the clock read for each |
| `Failover.Stream` | src/claudey/application/failover.py:151-208 | every position is considered once, in order, and tried exactly when not skipped; the run ends with the last tried node's success, its failure raised, a foreign error, the consumer leaving, or no usable node, never silently; a served node's mark and lockout are gone from the registry left, everything else is as its stream left it, and the node is what its named chain prefers from then on |
| `Failover.Settle` | src/claudey/application/failover.py:182-200 | after a stream ends: success recorded with the node remembered for its chain, failure recorded and raised, or recorded with a usable later node found |
| `Failover.SuccessIsRecorded` | src/claudey/application/failover.py:285-288 | recording a success clears the provider's mark and the node's lockout, leaves all others, and makes the node the preference of a named chain if the map has any capacity |
| `Failover.ServedNodeLeads` | src/claudey/application/failover.py:221-233 | so the node that served leads the chain's next request, at whatever time that comes, unless something else was recorded meanwhile |
| `Failover.FailsOverExactly` | src/claudey/application/failover.py:35-51 | a failure is failed over exactly when it is retryable and blames neither the request nor the key, and then its whole provider is down |
| `Failover.ContentAnywhere` | src/claudey/application/failover.py:73-79 | either event name starts content wherever it stands in a chunk |
| `Failover.ContentFromOneNode` | src/claudey/application/failover.py:151-192 | everything emitted before the last tried node is free of content starts |
| `Failover.DownMarkStays` | src/claudey/application/failover.py:188-192 | each failed-over node's provider stays marked down for the cooldown whatever the run records later |
| `Failover.ProviderAvoidance` | src/claudey/application/failover.py:35-51 | with no other writer and a run shorter than the cooldown, tried nodes have pairwise distinct providers |
| `Failover.RouteIsFirstTried` | src/claudey/application/failover.py:106-160 | announced route, preflighted node and first node tried agree in the same registry at the same instant |
| `StreamRecovery.HoldbackExact` | src/claudey/providers/stream_recovery.py:57-88 | over any run: what was emitted followed by what is held is what was pushed since the run last gave up, in order; while uncommitted nothing was emitted |
| `StreamRecovery.GivingUpIsInvisible` | src/claudey/providers/stream_recovery.py:81-84 | an early retry, or a discard before commitment, happens only when nothing was emitted, and nothing it gives up is emitted later |
| `StreamRecovery.NoRetryAfterEmission` | src/claudey/providers/stream_recovery.py:138-153 | once anything was emitted no failure is ever answered by EARLY_RETRY |
| `StreamRecovery.FailureDeliversAll` | src/claudey/providers/stream_recovery.py:114-117 | any other decision followed by its flush delivers the current attempt completely |
| `StreamRecovery.RunOk` | src/claudey/providers/stream_recovery.py:57-79 | an uncommitted buffer's byte count is the UTF-8 size of its events and below the cap |
| `StreamRecovery.HeldBriefly` | src/claudey/providers/stream_recovery.py:60-69 | after a push, if anything is held, the first event pushed since the last give-up arrived less than the holdback ago |
| `StreamRecovery.PushReleasesExactly` | src/claudey/providers/stream_recovery.py:57-69 | over any run a push emits exactly when something was committed before, the UTF-8 bytes pushed since the last give-up reach the cap, or the first of them has aged: nothing is released early |
| `StreamRecovery.ShortestEncoding` | src/claudey/providers/stream_recovery.py:64-64 | the bytes counted for a code point are those of its shortest UTF-8 encoding (section 3 of RFC 3629), or of the replacement for one that has none |
| `StreamRecovery.DecisionMeans` | src/claudey/providers/stream_recovery.py:119-173 | a failure that is not retryable is final; a retryable one after generated output with an attempt left or a tool to salvage never is; without generated output nothing is recovered in mid-stream; EARLY_RETRY exactly for an open, uncommitted stream with nothing to salvage and an attempt left, two after generated output |
| `StreamRecovery.MoreAttemptsHelp` | src/claudey/providers/stream_recovery.py:138-173 | with more attempts remaining no recovery turns into a final error and no early retry into anything else |
| `StreamRecovery.EmittedOutputIsRecovered` | src/claudey/providers/stream_recovery.py:155-162 | over any run: once anything was emitted, a retryable failure after generated output with an attempt left or a tool to salvage is MIDSTREAM_RECOVERY, and flushing for it first delivers the whole current attempt |
| `StreamRecovery.UnseenOutputIsRetried` | src/claudey/providers/stream_recovery.py:141-153 | over any run: while nothing was committed, a retryable failure that may start over is EARLY_RETRY, the buffer starts empty and the client has seen nothing |
| `StreamRecovery.RecoveryHoldbackBuffer.Push` | src/claudey/providers/stream_recovery.py:57-69 | the buffer's push equals its specification |
| `StreamRecovery.RecoveryHoldbackBuffer.Flush` | src/claudey/providers/stream_recovery.py:71-79 | so does flush |
| `StreamRecovery.RecoveryHoldbackBuffer.Discard` | src/claudey/providers/stream_recovery.py:81-84 | so does discard, which does not uncommit |
| `StreamRecovery.RecoveryController.AdvanceFailure` | src/claudey/providers/stream_recovery.py:119-173 | the decision, the buffer replaced exactly on an early retry, and nothing emitted then |
| `StreamRecovery.RecoveryController.FlushUncommitted` | src/claudey/providers/stream_recovery.py:114-117 | flushing for a decision happens only when it was uncommitted and had something buffered; it is one operation of the controller's run |
| `StreamRecovery.RecoveryController.Push` | src/claudey/providers/stream_recovery.py:105-106 | a push is one operation of the controller's run, and the client receives what that run emits |
| `DeliveryQueue.EnqueueRefines` | src/claudey/messaging/limiter.py:257-270 | list and table stand for an ordered map: a queued key keeps its place, takes the new function and gains the waiters; a new key goes to one end; no duplicates, same keys |
| `DeliveryQueue.RestRefines` | src/claudey/messaging/limiter.py:77-78 | popping both takes the ordered map's first entry |
| `DeliveryMachine.RunInv` | src/claudey/messaging/limiter.py:61-290 | the invariant over every interleaving of worker, callers, cancellation and shutdown |
| `DeliveryTheorems.OneOwner` | src/claudey/messaging/limiter.py:77-79 | every enqueued future that is not done is in exactly one list, the active one or the queued one of its own key, once |
| `DeliveryTheorems.BatchSharesOutcome` | src/claudey/messaging/limiter.py:91-111 | whether the function returned, raised or was cancelled, every waiter of the batch that is not done gets the same outcome, of the last waiter's function, and nobody else is touched |
| `DeliveryTheorems.LatestFunctionRuns` | src/claudey/messaging/limiter.py:257-262 | taking a key runs the function of the newest request ever placed for it |
| `DeliveryTheorems.RunInOrder` | src/claudey/messaging/limiter.py:263-269 | over any run in which every request is placed at the back, the keys stand in the order in which their oldest waiters were placed |
| `DeliveryTheorems.FirstComeFirstServed` | src/claudey/messaging/limiter.py:77-79 | so the work the worker takes has the waiter that was placed before everybody else in the queue |
| `DeliveryTheorems.FrontIsNext` | src/claudey/messaging/limiter.py:263-269 | a request placed at the front, unless its key is queued already, is the next the worker takes |
| `DeliveryTheorems.OutcomeIsOwnOrNewer` | src/claudey/messaging/limiter.py:93-111 | an outcome comes from a function asked for with the same key by a request placed no earlier |
| `DeliveryTheorems.OutcomesAreFinal` | src/claudey/messaging/limiter.py:93-111 | a settled future never changes again |
| `DeliveryTheorems.ShutdownSettlesAll` | src/claudey/messaging/limiter.py:178-196 | from shutdown's locked section on, at every moment of every continuation, every future ever handed out is done |
| `DeliveryTheorems.NoWorkAfterShutdown` | src/claudey/messaging/limiter.py:65-76 | after shutdown a worker that is not inside a function never enters one again, its next look at the queue ends it, and it is never started anew |
| `MessagingLimiter.MessagingRateLimiter.EnqueueInternalMulti` | src/claudey/messaging/limiter.py:244-270 | on the mutable list and table, with the closed and not-started errors |
| `MessagingLimiter.MessagingRateLimiter.Enqueue` | src/claudey/messaging/limiter.py:284-290 | a future refused at the lock is cancelled |
| `MessagingLimiter.MessagingRateLimiter.TakeWork` | src/claudey/messaging/limiter.py:77-79 | the worker's pop |
| `MessagingLimiter.MessagingRateLimiter.PauseLeft` | src/claudey/messaging/limiter.py:78-85 | what is left of a flood pause |
| `MessagingLimiter.MessagingRateLimiter.FinishWork` | src/claudey/messaging/limiter.py:89-176 | the loops over the waiters for each ending, the flood pause it sets, and whether the worker goes on, sleeps first because the pause was unreadable, or ends |
| `MessagingLimiter.FinishIsTheStep` | src/claudey/messaging/limiter.py:89-176 | the same futures and the same next state of the worker as in the state machine |
| `MessagingLimiter.MessagingRateLimiter.CancelQueued` | src/claudey/messaging/limiter.py:180-196 | shutdown's locked section cancels exactly the waiters of queue and active work and empties the queue |
| `Workflow.StopSilencesAll` | src/claudey/messaging/workflow.py:499-511 | no message received before a completed stop is live at any later moment |
| `Workflow.ClearForgetsAll` | src/claudey/messaging/workflow.py:520-564 | no message received before a completed clear of its scope is in the tree at any later moment |
| `Workflow.RefusedIff` | src/claudey/messaging/workflow.py:392-414 | a turn is refused exactly when a stop, or a clear of its own scope, began after it was received |
| `Workflow.NodesAreCurrent` | src/claudey/messaging/workflow.py:392-414 | a node in the tree carries the current clear generation of its scope exactly when no clear of the scope began since it was received, and the current stop generation exactly when no stop did; after a completed clear every node left does, after a completed stop every live one |
| `Workflow.LiveSinceAdmission` | src/claudey/messaging/workflow.py:392-564 | over any run a message is live exactly if it was admitted and since then no stop, no clear of its own scope, no interrupted stop or clear that reached it, and no end or removal of its own has come; a completed clear of another scope ends nothing |
| `Workflow.FailedClearLeavesOldNode` | src/claudey/messaging/workflow.py:539-564 | a concrete run in which a failed clear leaves a node of an older generation live |
| `Workflow.RunSound` | src/claudey/messaging/workflow.py:350-564 | over every interleaving of receipt, admission, stop, clear and node ends, the tokens, the tree and the history of each message agree |
| `MessagingWorkflow.MessagingWorkflow.HandleMessage` | src/claudey/messaging/workflow.py:350-358 | the token captured under the lock |
| `MessagingWorkflow.MessagingWorkflow.AdmitIfCurrent` | src/claudey/messaging/workflow.py:392-414 | the compare-and-admit block is one run of fencing steps |
| `MessagingWorkflow.MessagingWorkflow.StopAllTasks` | src/claudey/messaging/workflow.py:499-511 | the generation advances, and nothing is live after a cancellation that returned |
| `MessagingWorkflow.MessagingWorkflow.ClearChat` | src/claudey/messaging/workflow.py:520-564 | reads that fail change nothing; past them the generation advances whatever the tree does |

## Left out

- AdmissionTheorems.ProbesWithinOneBudget: counts probes of episodes whose leadership was not given up, because each new leader brings its own budget.
- AdmissionController.ProviderAdmissionController.RunWithRetry: whether and with which permit the gate admits each round is an input, because the waiting itself is interleaved in the state machine; the concurrency slot is counted there too.
- Failover.Stream: the content flag is kept per node instead of across nodes, because an attempt that has emitted content always ends the run.
- Failover.ProviderAvoidance: assumes no other writer of the registry, because another request's success clears the mark.
- ManagerTheorems.RunInv: holds of runs that start background refreshes in the disciplined way stated above, because the property is false of the others.
- Liveness of leader hand-off: a leader that never opens another attempt is not replaced; only safety is proved.
- First-come order of the semaphore, the locks and the sliding window: a free slot may go to any waiting task.
- Sessions, generations, futures and handlings of a message are told apart by numbers instead of object identity.
- The sliding window below admission: in the admission machine the limiter may let a task through at any time; its promise is proved separately in `RateLimit`.
- `connected_provider_changed`, the model cache and catalog publication: they keep no count and change no generation.
- Forced cleanup and what `runtime.cleanup()` does: an outcome, success or failure.
- The reason text of a provider mark and the recency order of model locks: written but never read by these cores.
- The route header's reason: the code gives one only when no node is usable, and `PrimaryRoute` says so.
- Request rewriting, reasoning policies and the preflight itself in `failover.py`: only which node they are applied to matters here.
- MessagingLimiter.MessagingRateLimiter.FinishWork: how the length of a flood pause is read from the error is an input, and so is the clock.
- Failures raised by the rate limiter inside the delivery worker: the limiter raises none of its own.
- Retries of `fire_and_forget`: each is a further enqueue.
- The message tree behind admit, cancel and clear: its contract is that a cancel-all that returns leaves nothing live and a clear-scope that returns leaves nothing of the scope; a call that raises may have done any part of it. Nodes restored at startup are not part of the model.
- Session store, transcripts, rendering and voice transcription: their effects are outside the fenced state.
- HTTP, server-sent event formatting, logging and trace events, launchers, tray and admin interfaces: plumbing without such a property.
- Classification of upstream exceptions, header date parsing, cryptography, usage and billing sums, id encoding, settings validation: inputs or simple folds.
