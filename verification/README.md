# Verified models of the payment platform's hard parts

This project models, in Dafny, the parts of the bd-pay platform whose safety rests on unbounded runs: the connector
dispatch protocol with its circuit breaker, mode registry and webhook pipeline; the compliance state machines and
aggregators; and two algorithms with exact arithmetic. `dafny verify dfyconfig.toml` checks everything.

Each component has a value-level machine (`State`/`Step`/`Run`) that carries the theorems, and, where the original mutates
objects, a class whose methods are proved to be steps of that machine. Asynchronous code is cut at its awaits: `Suspend`
methods stand for whatever other coroutines, workers or requests may do there, and the theorems range over every
interleaving of the pieces. Clocks, connector and kernel answers, credential look-ups, the validation of STR payloads and
store readability are inputs, unrestricted unless a contract says otherwise.

| files | component |
|---|---|
| `Breaker`, `Registry`, `Ladder`, `RefProtocol`, `Runner`, `Gatekeeper` | dispatch: failure window and half-open probes; mode ladder; exactly which calls move a connector on it; replay and the query-first rule on one reference; the runner object; authorisation of every rail touch across connectors |
| `Webhooks` | inbound webhooks: de-duplication, parking, expiry, one sweeper with many ingests |
| `Ctr`, `CtrFiling` | cash-transaction buckets under at-least-once delivery; aggregation and filing |
| `Rules`, `Monitor`, `Verdicts`, `Dormancy` | signed rule conditions; rolling windows and restart; what each verdict of a run is about; the dormancy rule and restart |
| `StrFiling`, `StrTick`, `StrMeeting`, `StrWorkflow` | suspicious-transaction reports: one report; the scheduler tick that gathers filing and retry; when the two meet; the service object and the overdue lane |
| `Approvals`, `Alerts`, `AlertService` | four-eyes gateway; alert machine with holds, freezes and escalation; the service object |
| `DossierArchive`, `DossierExports`, `DossierSweeps`, `DossierListing`, `DossierService` | sealed archives; racing workers, sweeps and deaths; what a sweep gets done; cursor paging; the service object |
| `ReportDates`, `Netting`, `Migrations` | Dhaka calendar attribution; greedy netting; crash-resumable migrations |
| `Common`, `Ordering` | shared vocabulary; sorting |

## Where the code does less than its words

The models follow the code. Each of these is proved as stated:

- The breaker's failure window tumbles from its first failure; it is not a rolling window (`Breaker.TripBoundIsTight`).
- `dispatch` does not enforce the query-first rule (`RefProtocol.DispatchQueriesFirstExactlyWhenClear`).
- The DUPLICATE webhook status exists in the table but is never stored.
- A submit cancelled after it reached the rail leaves no row, and the next one submits again (`RefProtocol.CancelledSubmitIsSubmittedAgain`); `submit`, retries included, keeps the query-first rule exactly when no cancelled call is unanswered (`RefProtocol.SubmitAsksFirstExactlyWhenDropsResolved`).
- A charge refused while no rule pack is active is never evaluated (`Monitor.EvaluatedExactlyAtFirstDelivery`), but returns in the history at the next restart (`Monitor.RefusedChargeReturnsAtRestart`).
- A payment is dated twice, when it is charged and later when its event is built (bdpay/kernel/orchestrator.py:821 and 2141); the running monitor keeps the second time, a restarted one the first. A restart keeps velocity verdicts exactly when no payment in reach has two times and none is forgotten or regained (`Monitor.VelocitySurvivesExactly`), and otherwise can raise a second alert (`Monitor.DelayedEventAlertsTwice`). For the dormancy rule see `Dormancy.DormancySurvivesExactlyWhenRemembered`.
- The scheduler gathers STR filing and retry in one tick; the two can meet and call the connector twice for one report. This is possible exactly when something is to be queued and something to be retried, or when the tick lasts long enough for a call that fails in it to be due again (`StrMeeting.TickCallsOnceExactlyWhenApart`, `StrMeeting.MeetingIsReachable`, `StrMeeting.ComingBackIsReachable`).
- Overlapping STR attempts escape the retry budget and can undo a confirmation (`StrFiling.BookIsKeptExactlyWithoutOverlap`, `StrFiling.ConfirmationLastsExactlyWhenIdle`).
- CTR filing writes back the figures it listed, so a movement aggregated meanwhile is lost until the next aggregation (`CtrFiling.FilingKeepsTotalsExactlyWhenUnmoved`). The scheduler of bdpay/app.py does not cause this overlap by itself: its aggregation does not suspend, stands before the filing task and ticks do not overlap. Any other caller of `run_daily_aggregation` during the connector call does.
- `file_pending` is documented to drop nothing, yet a crossed row of an account that does not start with acct_ raises out of its loop and keeps itself and every row behind it from being filed (`CtrFiling.LoopFinishesExactlyWhenBuildable`, `CtrFiling.UnbuildableRowBlocksTheRest`).
- The goAML connector keeps the first payload of a row until the portal rejects it, so that a row can be filed with figures the portal has not been told (`CtrFiling.PortalIsToldWhatIsFiledExactlyWhenStill`, `CtrFiling.OlderPayloadStands`).
- An alert triaged before its first escalation is notified twice in triage (`Alerts.TriagedEarlyIsNotifiedTwice`).
- Closing a freezing case thaws the subject for every other case on it (`Alerts.CoverHoldsExactlyWithoutASharedThaw`, `Alerts.ClosingOneCaseThawsTheOther`).
- A worker or sweep that dies between saving an ended export and appending its audit event leaves an ending nobody reports (`DossierSweeps.DeathSilencesAnEnding`).
- An export that ends on its own stops a running timeout sweep and drops the rest of its list (`DossierSweeps.ListIsWorkedToItsEndExactlyWhenNotOvertaken`, `DossierSweeps.OvertakenSweepDropsTheRest`).
- The greedy transfer set is called minimal and is not (`Netting.GreedyIsNotMinimal`), except against a single debtor or creditor (`Netting.GreedyIsShortestForOne`).
- Two live approval requests for one action and subject can coexist (`Approvals.TwoLiveRequests`), exactly when a failed execution is recorded beside a live request (`Approvals.OneLiveExactlyWhenNoFailureBesideIt`).
- Demo transfers can pay their own payer when a participant is listed twice (`Netting.DemoPayerDiffersExactlyWhenDistinct`).
- CTR rows carry the Dhaka date while the renderer checks the UTC date (`ReportDates.DhakaAndUtcAgreeBefore18`).

## Model

| member | source | states |
|---|---|---|
| `Breaker.ReachableIsWellFormed` | bdpay/connectors/breaker.py:125-264 | every record reachable by any calls and any clock: CLOSED has fewer failures than the threshold and a window exactly when it has some, OPEN has an opening time, HALF_OPEN stays within its probe quota |
| `Breaker.CountIsBackedByFailures` | bdpay/connectors/breaker.py:243-264 | in every run a CLOSED record counts exactly its newest observations, all failures, the first of which anchors the window |
| `Breaker.TripNeedsThresholdFailures` | bdpay/connectors/breaker.py:214-264 | a trip from CLOSED means the last `threshold` observations were failures lying within one window |
| `Breaker.EnoughFailuresTrip` | bdpay/connectors/breaker.py:214-264 | from any reachable non-OPEN record, max(1, T, 2T-2) consecutive failures within one window open the breaker, whatever other calls run in between |
| `Breaker.TripBoundIsTight` | bdpay/connectors/breaker.py:214-264 | for every threshold and every window of at least one second, one failure fewer need not open it: the window tumbles, it does not roll |
| `Breaker.MoneyOnlyWhenClosed` | bdpay/connectors/breaker.py:190-212 | for a connector that is not informational, SUBMIT and REVERSE are admitted only from CLOSED; a status query admitted otherwise is a counted HALF_OPEN probe |
| `Breaker.OpenIsInert` | bdpay/connectors/breaker.py:181-264 | while OPEN, before the cooldown and without a reset, nothing is admitted and no call changes the record |
| `Breaker.EpisodeCounters` | bdpay/connectors/breaker.py:190-264 | in HALF_OPEN the two counters are the probes admitted and the successes observed since the episode began |
| `Breaker.HalfOpenIsRationed` | bdpay/connectors/breaker.py:190-264 | each half-open episode admits at most `quota` probes and closes only on the success that completes the quota |
| `Breaker.OpenedAtIsTheOpening` | bdpay/connectors/breaker.py:181-264 | over every run the opening time of an OPEN record is the time of the call that opened it, as its history shows |
| `Breaker.AdmittedExactly` | bdpay/connectors/breaker.py:190-212 | over every run a call is let through if and only if the state is readable and the connector is informational, or the breaker is CLOSED, or, half open or with the cooldown past since the opening its history shows, it is a health check or a status query with a probe of the episode left |
| `Breaker.MovesExactly` | bdpay/connectors/breaker.py:125-264 | over every run: the exact calls, answers and times that take a record from each of CLOSED, OPEN and HALF_OPEN to each other phase, and that nothing else does |
| `Breaker.DefaultsExactly` | bdpay/connectors/breaker.py:59-66 | over every run an unconfigured breaker opens on the fifth failure within 60 seconds, admits again 30 seconds after its opening and closes on the third success of an episode, of at most three probes |
| `Breaker.CircuitBreaker.constructor` | bdpay/connectors/breaker.py:72-90 | a breaker starts with no records, each connector reading as a fresh CLOSED one |
| `Breaker.CircuitBreaker.DoAdmit` | bdpay/connectors/breaker.py:190-212 | answers and updates the record as one step of the machine, whose answer is fixed by `AdmittedExactly`; every other connector is left alone |
| `Breaker.CircuitBreaker.MaybeCooldown` | bdpay/connectors/breaker.py:181-186 | moves OPEN to HALF_OPEN exactly when the cooldown has elapsed |
| `Breaker.CircuitBreaker.DoObserve` | bdpay/connectors/breaker.py:214-264 | one observation is one step of the machine; unreadable state is left alone |
| `Breaker.CircuitBreaker.DoReset` | bdpay/connectors/breaker.py:266-273 | an operator reset moves OPEN to HALF_OPEN and is refused otherwise |
| `Breaker.CircuitBreaker.State` | bdpay/connectors/breaker.py:275-282 | reading the state applies the cooldown; unreadable state reads as OPEN |
| `Registry.EveryRunKeepsTheLadder` | bdpay/connectors/registry.py:560-746 | over every run each connector’s log chains by legal entries from its registered mode to its current one, a switch-on restores what the switch-off left, enabled means not DISABLED, and PRODUCTION is held only by registration or an approved promotion |
| `Registry.RegisteredDisabledStaysDisabled` | bdpay/connectors/registry.py:692-715 | a connector registered DISABLED never leaves it and never gets a log entry |
| `Registry.SweepFailsClosed` | bdpay/connectors/registry.py:719-746 | a sweep only switches off, exactly the credentialed connectors whose credentials do not resolve, and leaves none of them on |
| `Registry.SweptIdsAreTheChanged` | bdpay/connectors/registry.py:719-746 | the returned ids are exactly the connectors whose row changed |
| `Registry.SweepLeavesOnlyResolved` | bdpay/connectors/registry.py:719-746 | after a sweep of the whole registry every credentialed connector resolves |
| `Ladder.FiledIsWhatWasSaid` | bdpay/connectors/registry.py:336-468 | over every run certification, version and credential references on file are what the calls so far have said: first registration, then verdicts, and STALE at a changed version |
| `Ladder.ClimbsExactly` | bdpay/connectors/registry.py:629-663 | over every run `promote` moves a connector one rung up, with one log entry, if and only if the calls so far left it PASSED, the target’s credentials are in the vault and PRODUCTION comes with an approval; otherwise it is refused and nothing changes |
| `Ladder.DemotedExactly` | bdpay/connectors/registry.py:665-677 | over every run `demote` moves exactly from PRODUCTION to a working mode below it |
| `Ladder.DisabledExactly` | bdpay/connectors/registry.py:679-690 | over every run `disable` moves exactly a connector that is not DISABLED |
| `Ladder.ReEnabledExactly` | bdpay/connectors/registry.py:692-715 | over every run `re_enable` moves a connector back to the mode its log shows at the switch-off, if and only if that mode is usable |
| `Ladder.RegisteredExactly` | bdpay/connectors/registry.py:336-384 | a registration is accepted exactly for a known protocol and a new id, and starts in its own mode |
| `Ladder.FiledExactly` | bdpay/connectors/registry.py:425-468 | verdicts and versions are taken exactly for connectors on file, and move nothing |
| `Ladder.SweptExactly` | bdpay/connectors/registry.py:719-746 | over every run a credential sweep switches off, with one log entry each, exactly the connectors whose credentials are missing, and leaves the others alone |
| `Registry.ConnectorRegistry.constructor` | bdpay/connectors/registry.py:312-334 | an empty registry |
| `Registry.ConnectorRegistry.ApplyMode` | bdpay/connectors/registry.py:560-625 | one mode change with its log entry, as one value |
| `Registry.ConnectorRegistry.DoRegister` | bdpay/connectors/registry.py:336-384 | the reply and the new catalogue of a registration, conflicts and unknown protocols included |
| `Registry.ConnectorRegistry.DoSetCertification` | bdpay/connectors/registry.py:425-438 | certification is replaced, nothing else |
| `Registry.ConnectorRegistry.DoBumpVersion` | bdpay/connectors/registry.py:440-466 | a new version stales the certification; the same version changes nothing |
| `Registry.ConnectorRegistry.DoPromote` | bdpay/connectors/registry.py:629-663 | the reply and the new catalogue of a promotion, which are those of `Ladder.ClimbsExactly` |
| `Registry.ConnectorRegistry.DoDemote` | bdpay/connectors/registry.py:665-677 | out of PRODUCTION only |
| `Registry.ConnectorRegistry.DoDisable` | bdpay/connectors/registry.py:679-690 | switches off, remembering the mode |
| `Registry.ConnectorRegistry.DoReEnable` | bdpay/connectors/registry.py:692-715 | restores the remembered mode when it resolves |
| `Registry.ConnectorRegistry.SweepCredentials` | bdpay/connectors/registry.py:719-746 | the loop computes the sweep of the whole catalogue and the ids it switched off |
| `RefProtocol.EveryRunIsSound` | bdpay/connectors/runner.py:274-371 | in every run on one reference, cancelled calls included: every touch that came back left exactly one row, every submit touch follows a write-ahead intent, and a replay-safe submit outcome is the recorded one with no submit touch after it |
| `RefProtocol.DispatchAsksFirstExactlyWhenResolved` | bdpay/connectors/runner.py:274-341 | with cancelled submits counted as of unknown outcome, a dispatch keeps the query-first rule if and only if it does not touch the rail or every timed-out and every cancelled submit was answered not-received |
| `RefProtocol.SubmitAsksFirstExactlyWhenDropsResolved` | bdpay/connectors/runner.py:345-371 | `submit` with all its retries keeps it if and only if it does not touch the rail or every cancelled submit was answered not-received: it asks about timed-out ones only |
| `RefProtocol.CancelledSubmitIsSubmittedAgain` | bdpay/connectors/runner.py:309-341 | a submit cancelled after the touch leaves no row, so the next submit touches the rail again without asking |
| `RefProtocol.EveryGuardedRunQueriesFirst` | bdpay/connectors/runner.py:345-445 | in every run of submit, resubmit, settle, query and reverse, a submit after a timed-out submit is preceded by a later status query answered not-received |
| `RefProtocol.DispatchQueriesFirstExactlyWhenClear` | bdpay/connectors/runner.py:274-341 | a raw dispatch keeps that rule if and only if it replays, adds no row, or every timed-out submit was answered not-received |
| `RefProtocol.RawDispatchCanBreakQueryFirst` | bdpay/connectors/runner.py:274-341 | two raw dispatches, the first timing out, break the rule: dispatch does not enforce it |
| `RefProtocol.RecordedResultReplays` | bdpay/connectors/runner.py:274-371 | with a recorded result dispatch and submit answer it with no touch, no row and no sleep |
| `RefProtocol.NoSubmitAfterRecorded` | bdpay/connectors/runner.py:274-341 | a ledger with a recorded result never gains another submit touch, answered or cancelled |
| `RefProtocol.RecordedResultIsFinal` | bdpay/connectors/runner.py:274-371 | once recorded the result stays through any later actions, and every later dispatch or submit returns it without touching the rail |
| `RefProtocol.SubmitIsBounded` | bdpay/connectors/runner.py:345-371 | one submit makes at most 1 + retries touches, cancelled ones counted; its k-th sleep is the initial back-off doubled k times, capped from the second on; it gives up only with the budget spent |
| `RefProtocol.SettleReversesOnlyUnresolved` | bdpay/connectors/runner.py:403-445 | settle asks at most three times, each poll only while none before it was definitive, and reverses at most once, last, if and only if the polls it was let make left the submit open |
| `RefProtocol.StoppedCallsSayWhy` | bdpay/connectors/runner.py:274-324 | a call stopped before the rail leaves the ledger alone, is not tried again and answers why: no such connector, or FAILED with connector_disabled, sandbox_isolation_violation or circuit_open; only a recorded result is answered instead |
| `RefProtocol.ReachedCallsSayWhatCame` | bdpay/connectors/runner.py:307-341 | a call that reached the rail answers what the adapter returned, TIMED_OUT for a hard timeout and a FAILED transport error for a raising one; exactly the transport errors are tried again |
| `RefProtocol.ForbiddenExactly` | bdpay/connectors/runner.py:345-445 | an unregistered connector is told so, whatever is asked; `submit` is forbidden exactly after a timed-out submit, `resubmit` and `settle` exactly without one |
| `RefProtocol.EveryGoodAnswerIsOnRecord` | bdpay/connectors/runner.py:274-445 | over every run an answer that is neither FAILED nor TIMED_OUT stands in a row the rail has answered, and a submit’s is the recorded result: no answer is made up |
| `RefProtocol.RecordedExactlyWhenGood` | bdpay/connectors/runner.py:309-341 | a submit that came back is recorded exactly when it neither failed nor timed out, and leaves one row with what came back |
| `RefProtocol.PollsUntilSettled` | bdpay/connectors/runner.py:522-538 | `poll_status` asks exactly until the first settling answer or the end of its budget, and answers the last |
| `RefProtocol.ResubmitsExactlyWhenNotReceived` | bdpay/connectors/runner.py:373-401 | `resubmit` submits again, once, exactly when the newest submit timed out, the last query was answered not-received, nothing replays and the call reaches the rail; it answers with that submit’s reply or the last query’s |
| `Runner.IdempotencyStore.constructor` | bdpay/connectors/idempotency.py:85-95 | an empty store |
| `Runner.IdempotencyStore.Put` | bdpay/connectors/idempotency.py:100-108 | first write wins |
| `Runner.IdempotencyStore.Begin` | bdpay/connectors/idempotency.py:110-131 | an intent is written once and never replaced |
| `Runner.ConnectorRunner.constructor` | bdpay/connectors/runner.py:127-152 | a runner over an empty store has blank ledgers |
| `Runner.ConnectorRunner.Touched` | bdpay/connectors/runner.py:239-341 | one adapter call: the row of its outcome, or none when it was cancelled |
| `Runner.ConnectorRunner.SubmitOnce` | bdpay/connectors/runner.py:307-341 | intent first, then the touch, then the record of a replay-safe outcome |
| `Runner.ConnectorRunner.Dispatch` | bdpay/connectors/runner.py:274-341 | one dispatch of the reference is one step of the protocol machine, whose answers are fixed by `StoppedCallsSayWhy`, `ReachedCallsSayWhatCame` and `EveryGoodAnswerIsOnRecord` |
| `Runner.ConnectorRunner.Call` | bdpay/connectors/runner.py:449-488 | query and reverse are one step of the protocol machine on their reference, with the answers of `StoppedCallsSayWhy` and `ReachedCallsSayWhatCame` |
| `Runner.ConnectorRunner.SubmitWithRetries` | bdpay/connectors/runner.py:345-371 | submit, loop included, computes the protocol’s reply, ledger and sleeps |
| `Runner.ConnectorRunner.RetryTransport` | bdpay/connectors/runner.py:361-371 | the retry loop computes the recursive specification, sleeps in order |
| `Runner.ConnectorRunner.PollStatus` | bdpay/connectors/runner.py:522-538 | the poll loop stops at the first definitive answer |
| `Runner.ConnectorRunner.ResubmitAfterTimeout` | bdpay/connectors/runner.py:373-401 | resubmits only after a not-received answer |
| `Runner.ConnectorRunner.SettleAfterTimeout` | bdpay/connectors/runner.py:403-445 | settles or refuses as specified |
| `Runner.ConnectorRunner.PollThenReverse` | bdpay/connectors/runner.py:420-445 | the settlement loop computes the specified polls and reversal |
| `Runner.ConnectorRunner.LastRow` | bdpay/connectors/stores.py:212-222 | the newest row of a kind, or none |
| `Gatekeeper.BreakerIsItsOwnHistory` | bdpay/connectors/runner.py:449-488 | in any interleaving over many connectors each breaker is the fold of its own calls |
| `Gatekeeper.CatalogueIsItsOwnHistory` | bdpay/connectors/runner.py:449-488 | the registry seen by the runner is the fold of the registry calls alone |
| `Gatekeeper.SimulatorOnlyAdapters` | bdpay/connectors/runner.py:169-203 | a simulator-only runner never holds another adapter |
| `Gatekeeper.EveryTouchIsAuthorised` | bdpay/connectors/runner.py:179-341 | every rail touch of every run is on an enabled connector, through the adapter of its active mode, approved if in PRODUCTION, on a simulator if simulator-only, and, unless the connector is informational, past a CLOSED breaker if it moves money |
| `Gatekeeper.OpenMeansNoTouch` | bdpay/connectors/runner.py:274-341 | from opening until cooldown or reset no run touches that connector’s rail, whatever runs beside it |
| `Gatekeeper.TouchesAreProbes` | bdpay/connectors/runner.py:449-488 | touches of a half-open episode are among the probes its breaker admitted |
| `Gatekeeper.HalfOpenTouchesAreRationed` | bdpay/connectors/runner.py:449-593 | each half-open episode lets at most `quota` status queries reach the rail |
| `Gatekeeper.PassesExactly` | bdpay/connectors/runner.py:179-341 | over every run a call is let through exactly when its connector is on, is a simulator where only these are allowed, may pass by its breaker’s own history and has an adapter; otherwise the first of these that fails is the answer |
| `Gatekeeper.BreakerHears` | bdpay/connectors/runner.py:449-488 | exactly which pieces reach which breaker, and as what |
| `Gatekeeper.AdaptersAreThoseRegistered` | bdpay/connectors/runner.py:169-177 | over every run an adapter is there exactly when it was registered in a mode the deployment admits |
| `Gatekeeper.Guard.constructor` | bdpay/connectors/runner.py:127-152 | a guard over a registry and a breaker with no adapters |
| `Gatekeeper.Guard.RegisterAdapter` | bdpay/connectors/runner.py:169-177 | refused exactly for a non-simulator adapter in a simulator-only deployment |
| `Gatekeeper.Guard.EnterCall` | bdpay/connectors/runner.py:179-341 | the checks before an adapter call, in order, with the breaker moved only when it was asked |
| `Webhooks.EveryRunAcceptsOnce` | bdpay/connectors/webhooks.py:141-373 | with one sweeper and any ingests interleaved at the kernel call: the kernel accepts each (connector, body) at most once, only after a literal-True verification; a row is PROCESSED exactly when accepted, with exactly one result row |
| `Webhooks.PastVerificationWasVerified` | bdpay/connectors/webhooks.py:195-277 | a row that is not REJECTED had a delivery whose verification was literally True |
| `Webhooks.TerminalIsForever` | bdpay/connectors/webhooks.py:64-80 | PROCESSED and REJECTED rows never change again |
| `Webhooks.RedeliveryChangesNothing` | bdpay/connectors/webhooks.py:220-230 | a delivery of bytes already on file changes nothing |
| `Webhooks.OnlyWorkedRowChanges` | bdpay/connectors/webhooks.py:141-153 | each piece writes at most its own row, which is new, PARKED or PARSED |
| `Webhooks.SweepExpires` | bdpay/connectors/webhooks.py:330-373 | a sweep run to its end leaves no listed row PARKED at 24 hours or more |
| `Webhooks.ExpiryIsNeverEarly` | bdpay/connectors/webhooks.py:340-356 | a row expires as unmatched only at 24 hours or more |
| `Webhooks.RowsMoveExactly` | bdpay/connectors/webhooks.py:141-373 | the exact answers and sweep visits that bring a row on file to each status, with its time, and that nothing else does |
| `Webhooks.AcceptedExactly` | bdpay/connectors/webhooks.py:279-328 | a body is accepted exactly when the kernel’s answer to it is an acceptance |
| `Webhooks.RowsAppearExactly` | bdpay/connectors/webhooks.py:195-277 | a row appears exactly at the first delivery of its bytes to a connector with a handler, last in order: REJECTED unless the check said a literal True and the body parses, and else waiting for the kernel |
| `Webhooks.SweepsGoOnExactly` | bdpay/connectors/webhooks.py:330-373 | a sweep starts with the parked rows when none is at work, takes them one by one, and is over exactly at the end of its list or when the kernel raises |
| `Webhooks.ParkedInOrder` | bdpay/connectors/webhooks.py:330-340 | a sweep lists the parked rows in the order they came |
| `Webhooks.RunKeepsInv` | bdpay/connectors/webhooks.py:141-373 | the pipeline invariant survives every interleaving |
| `Webhooks.WebhookPipeline.constructor` | bdpay/connectors/webhooks.py:103-126 | an empty pipeline |
| `Webhooks.WebhookPipeline.AdvanceRow` | bdpay/connectors/webhooks.py:141-153 | a row moves only along the allowed table; a refused move is counted and changes nothing |
| `Webhooks.WebhookPipeline.IngestDelivery` | bdpay/connectors/webhooks.py:195-277 | the synchronous part of ingest is one step, with the disposition it reports |
| `Webhooks.WebhookPipeline.FinishHandoff` | bdpay/connectors/webhooks.py:279-326 | the answer of the kernel applied to the row, acceptance and result together |
| `Webhooks.WebhookPipeline.ListParked` | bdpay/connectors/webhooks.py:330-340 | the parked rows in order of arrival |
| `Webhooks.WebhookPipeline.VisitRow` | bdpay/connectors/webhooks.py:334-371 | one listed row is expired, left or re-parsed for the kernel, which of the three depending on its age, handler and parser |
| `Webhooks.WebhookPipeline.SweepRow` | bdpay/connectors/webhooks.py:334-373 | one turn of the sweep with ingests running at the kernel call: the row meets its fate, the other listed rows are as they were, and the sweep breaks off exactly when the kernel raises |
| `Webhooks.WebhookPipeline.AwaitKernel` | bdpay/connectors/webhooks.py:279-326 | the kernel call of the sweep, interleaved with ingests: the answer lands on the row as it was |
| `Webhooks.WebhookPipeline.AnswerSweep` | bdpay/connectors/webhooks.py:279-326 | the kernel’s answer applied within the sweep |
| `Webhooks.WebhookPipeline.SweepParked` | bdpay/connectors/webhooks.py:330-373 | a sweep breaks off exactly when the kernel raises on a row that goes to it; otherwise every row it listed has met its fate, the outcome reports each row’s status, and none is PARKED at 24 hours or more |
| `Netting.FixtureTransfers` | bdpay/connectors/certification_pso.py:534-570 | for zero-sum positions: both sides are exhausted together, at most d+c-1 strictly positive transfers between different participants, every net reproduced exactly, and no prefix takes anyone past their final net; non-zero sums are refused; the transfers are the greedy matching |
| `Netting.GreedyIsNotMinimal` | bdpay/connectors/certification_pso.py:534-570 | the set is not minimal as documented: -2, -3, +3, +2 in id order gets three transfers where two do |
| `Netting.SettlingTakesTheLongerSide` | bdpay/connectors/certification_pso.py:534-570 | no list of positive transfers that reproduces the nets has fewer entries than there are debtors, or than there are creditors |
| `Netting.GreedyIsShortestForOne` | bdpay/connectors/certification_pso.py:534-570 | with a single debtor or a single creditor the greedy list is a shortest one |
| `Netting.CapIsNeverReached` | bdpay/connectors/certification_pso.py:688 | no prefix brings anyone past half of max(cap, 2 max |net|) |
| `Netting.CapIsTheLarger` | bdpay/connectors/certification_pso.py:688 | the cap is the given one or twice the largest net, whichever is larger |
| `Netting.DeriveDemoTransfers` | bdpay/connectors/certification_pso.py:505-531 | over the sorted participants: the requested length, amounts between 100 and 10099, every transfer routed by its digest words; fewer than two participants or an empty request is refused |
| `Netting.DemoIgnoresGivenOrder` | bdpay/connectors/certification_pso.py:523 | the order in which the participants are given does not matter |
| `Ordering.SortStringsSorts` | bdpay/connectors/certification_pso.py:523 | the sort is in order and keeps every id as often as it occurs |
| `Netting.DemoPayerDiffersExactlyWhenDistinct` | bdpay/connectors/certification_pso.py:505-531 | payer and payee differ for every digest if and only if no participant is named twice |
| `Ctr.BucketIsSumOfDistinct` | bdpay/compliance/ctr.py:185-224 | a bucket holds, per direction, the sum over the distinct cash events of its account and day, and their number |
| `Ctr.CountsAreDelivered` | bdpay/compliance/ctr.py:185-224 | an id is counted exactly when a cash event with it, over an agent or a machine, in or out, of a positive amount, was delivered, with that event’s direction and amount |
| `Ctr.RepliesExactly` | bdpay/compliance/ctr.py:185-224 | after any deliveries the caller is told exactly what became of the next: an unknown channel, a bad direction, an amount that is no positive number, counted, or ignored as no cash or delivered before |
| `Ctr.DeliveryOrderDoesNotMatter` | bdpay/compliance/ctr.py:185-224 | any duplicated and reordered delivery of the same events gives identical buckets, if an id names one movement |
| `Ctr.SwapMattersExactlyOnConflict` | bdpay/compliance/ctr.py:185-224 | two deliveries commute exactly unless they share bucket and id but differ |
| `CtrFiling.CrossingAndFilingAreForever` | bdpay/compliance/ctr.py:228-382 | over every run with one filing loop, a crossed row stays crossed, a filed one stays filed, and only crossed rows are filed |
| `CtrFiling.AggregationIsExactAndIdempotent` | bdpay/compliance/ctr.py:228-307 | after aggregation the day’s rows are exactly its buckets with filing stamps kept; aggregating again changes only the computation time |
| `CtrFiling.LoopFinishesExactlyWhenBuildable` | bdpay/compliance/ctr.py:311-382 | over every run, the latest filing loop has worked its list to the end if and only if the account of every listed row starts with acct_; otherwise it stopped before the first that does not, and the rest carry the stamps with which they were listed |
| `CtrFiling.UnbuildableRowBlocksTheRest` | bdpay/compliance/ctr.py:311-382 | as long as such a crossed row is unfiled, it and every row behind it in (date, account) order keep their stamps over every run |
| `CtrFiling.TwoRowsAndNeitherIsFiled` | bdpay/compliance/goaml.py:193-216 | two crossed rows of one day, accounts A and acct_1: no loop starts and neither is ever filed |
| `CtrFiling.FilingKeepsTotalsExactlyWhenUnmoved` | bdpay/compliance/ctr.py:332-382 | in every run an accepted filing leaves the row’s totals as stored if and only if every aggregation of its day since the loop began found the bucket with the listed count; otherwise it lowers them; other rows are untouched |
| `CtrFiling.ConnectorHoldsTheStoredFiguresExactlyWhenStill` | bdpay/connectors/identity/goaml.py:597-611 | over every run, with portal rejections at any time, the payload the connector holds for a row shows the stored figures if and only if no movement of the row was counted between the readings of the two; the earlier reading is never ahead |
| `CtrFiling.PortalIsToldWhatIsFiledExactlyWhenStill` | bdpay/compliance/ctr.py:332-382 | an accepted call leaves the row with its listed figures, and the connector holds these if and only if no movement was counted between the listing’s reading and that of the payload it holds: this call’s, or an earlier one’s while that filing stands |
| `CtrFiling.OlderPayloadStands` | bdpay/connectors/identity/goaml.py:602-605 | a run in which a call is left queued, a deposit is aggregated and the next loop files the new figures: the connector still holds the old ones |
| `CtrFiling.OverlapFilesShort` | bdpay/compliance/ctr.py:332-382 | a run in which a deposit aggregated during the call is overwritten by the listed figures: the row is filed short, the portal told the same, until the next aggregation |
| `CtrFiling.PendingLists` | bdpay/compliance/ctr.py:119-123 | the list to file is exactly the unfiled rows whose two totals together reach the threshold |
| `CtrFiling.ListedByDate` | bdpay/compliance/ctr.py:119-123 | in order of date, and of account within a date |
| `CtrFiling.StandsUntilRejected` | bdpay/connectors/identity/goaml.py:597-611 | over every run a filing that stands at the connector keeps its payload until the portal rejects it |
| `CtrFiling.CallsLeaveTheirPayload` | bdpay/connectors/identity/goaml.py:597-611 | a call made when none stands leaves its payload unless it failed before it was taken, and that filing stands exactly when it was not rejected meanwhile |
| `CtrFiling.TurnsFindStanding` | bdpay/connectors/identity/goaml.py:597-611 | a call finds a standing filing exactly when the connector has one that was not rejected |
| `CtrFiling.RejectionsFall` | bdpay/connectors/identity/goaml.py:597-611 | a rejection falls on the filing on its way if there is one, and else on the one at the connector |
| `CtrFiling.AggregateDay` | bdpay/compliance/ctr.py:228-307 | the aggregation loop computes the specified table |
| `CtrFiling.CtrBatch.constructor` | bdpay/compliance/ctr.py:147-168 | an empty batch |
| `CtrFiling.CtrBatch.IntakeCashEvent` | bdpay/compliance/ctr.py:185-224 | one delivery is one step of the bucket table |
| `CtrFiling.CtrBatch.TakeEvent` | bdpay/compliance/ctr.py:185-224 | the bucket update with its de-duplication |
| `CtrFiling.CtrBatch.RunDailyAggregation` | bdpay/compliance/ctr.py:228-307 | one aggregation is one step |
| `CtrFiling.CtrBatch.AwaitConnector` | bdpay/compliance/ctr.py:345-347 | while the connector is called any intakes, aggregations and rejections run; the list and every filing stamp stay |
| `CtrFiling.CtrBatch.WriteAnswer` | bdpay/compliance/ctr.py:349-380 | the answer is written over the row as listed |
| `CtrFiling.CtrBatch.FileOne` | bdpay/compliance/ctr.py:343-380 | one row: whatever others did meanwhile, then the answer; it ends filed with the reference and time, with the reference, or as it was, no other row’s stamps change, and the loop goes on to the next row unless that cannot be built |
| `CtrFiling.CtrBatch.ListPending` | bdpay/compliance/ctr.py:342-343 | the list, and the first call unless its payload cannot be built |
| `CtrFiling.CtrBatch.FilePending` | bdpay/compliance/ctr.py:332-382 | it raises if and only if some row crossed and unfiled at the start cannot be built; the rows listed before the first such end filed if submitted, with the reference if queued, as they were if the call failed; no other row’s stamps change; without a raise the rows returned are exactly those submitted |
| `ReportDates.MonthBoundsMatchReportDates` | bdpay/compliance/report_dates.py:46-87 | an instant lies in the UTC range of a month if and only if its Dhaka report date falls in that month |
| `ReportDates.MonthBoundsAbut` | bdpay/compliance/report_dates.py:71-87 | consecutive months abut |
| `ReportDates.MonthsPartitionTime` | bdpay/compliance/report_dates.py:71-87 | every instant from January 2020 lies in exactly one month range |
| `ReportDates.MonthOfOrdinal` | bdpay/compliance/report_dates.py:46-57 | a date is in a month exactly when its day number is between that month’s first and the next one’s, leap years as in Appendix C of RFC 3339 |
| `ReportDates.OrdinalIsInjective` | bdpay/compliance/report_dates.py:46-57 | a day number names one date |
| `ReportDates.CalendarIsGregorian` | bdpay/compliance/report_dates.py:46-57 | 400 years are 146097 days from any year on, and 1970-01-01 and the leap days of 1900, 2000 and 2020 have their Gregorian numbers |
| `ReportDates.BoundsRefusedExactly` | bdpay/compliance/report_dates.py:71-87 | a month outside 1 to 12, a year before 2020 and an end past year 9999 are refused, each with its own error, and nothing else |
| `ReportDates.DhakaAndUtcAgreeBefore18` | bdpay/compliance/goaml_xml.py:570-582 | the Dhaka date of a row equals the UTC date the renderer checks if and only if the instant is before 18:00 UTC |
| `Rules.EvalIsLocal` | bdpay/compliance/packs.py:572-584 | the verdict of a condition tree, errors included, depends only on the facts it mentions |
| `Rules.NothingHoldsWithoutFacts` | bdpay/compliance/packs.py:537-584 | missing facts never satisfy: without facts no tree free of empty `all` nodes holds |
| `Rules.TreesMean` | bdpay/compliance/packs.py:572-613 | `all` is the conjunction of its parts and a rule that of its conditions; `any` and `any_of` are the disjunctions of theirs |
| `Rules.AllMeans` | bdpay/compliance/packs.py:572-584 | a conjunction holds exactly when every part does, and otherwise comes out as the first part that does not: false or refused |
| `Rules.AnyMeans` | bdpay/compliance/packs.py:572-584 | a disjunction is false exactly when every part is, and otherwise comes out as the first part that is not |
| `Rules.ConditionsSay` | bdpay/compliance/packs.py:520-570 | a condition is refused for an unresolved threshold or a float in the rule before its fact is looked for; a missing fact makes it false; a float fact or an unknown operator refuses it; otherwise it compares |
| `Rules.IntegersCompare` | bdpay/compliance/packs.py:537-570 | the six comparisons of integers |
| `Rules.TextsCompare` | bdpay/compliance/packs.py:537-570 | the six comparisons of texts, by code points |
| `Rules.TruthIsOneOrZero` | bdpay/compliance/packs.py:537-570 | truth values compare as 1 and 0 |
| `Rules.KindsDoNotMix` | bdpay/compliance/packs.py:537-570 | a text and a number are never equal and cannot be ordered |
| `Rules.InLooksForAPiece` | bdpay/compliance/packs.py:537-570 | `in` on a text looks for a piece of it |
| `Rules.ListsOnlyHold` | bdpay/compliance/packs.py:537-570 | a list holds what equals one of its items, equals nothing and cannot be ordered |
| `Rules.StructuringRuleMeans` | bdpay/compliance/packs.py:259-308 | the signed structuring rule accepts exactly when count, sum and largest meet their limits |
| `Rules.VelocityRuleMeans` | bdpay/compliance/packs.py:309-347 | the signed velocity rule, its limits resolved from the thresholds, accepts exactly when count or sum reaches its limit |
| `Monitor.StructuringIsTheSignedRule` | bdpay/compliance/monitor.py:390-411 | the hand-written evaluator alerts on exactly the windows where the signed structuring rule accepts the window’s facts |
| `Monitor.VelocityIsTheSignedRule` | bdpay/compliance/monitor.py:413-427 | likewise for the velocity rule |
| `Monitor.StructuringAlertIsAboutItsWindow` | bdpay/compliance/monitor.py:390-411 | an alert names every payment of its window and their sum and is dated by the earliest of them |
| `Monitor.VelocityAlertIsAboutItsWindow` | bdpay/compliance/monitor.py:413-427 | likewise for velocity |
| `Monitor.EvaluatedExactlyAtFirstDelivery` | bdpay/compliance/monitor.py:225-323 | over every run a delivery is evaluated if and only if it is the first of its id, a well-formed charge, and a pack is active, and raises exactly without an id or as such a first delivery that is malformed or meets no pack |
| `Verdicts.EveryVerdictIsAboutItsWindow` | bdpay/compliance/monitor.py:225-427 | over every run from start-up each verdict drawn is what the signed rule says of the subject’s payments evaluated so far, this one included, that lie in the window ending at it; an alert names them all, their sum and the earliest |
| `Verdicts.EvaluationsAreFirstDeliveries` | bdpay/compliance/monitor.py:225-266 | these payments are those of the first deliveries that were well-formed charges met by an active pack, in order |
| `Monitor.HistoryIsEvaluations` | bdpay/compliance/monitor.py:252-266 | the running history of a subject is its evaluated charges, in order |
| `Monitor.InStepExactlyWhenNoneUnseen` | bdpay/compliance/monitor.py:182-250 | over every run from start-up, with the store holding the evaluated and refused payments and those whose event is still to come, each charged once: monitor and store agree if and only if none was refused for want of a pack, none is ahead of its event, and every evaluated one carries the same time in its row and in its event |
| `Monitor.RefusedChargeIsNeverEvaluated` | bdpay/compliance/monitor.py:237-250 | a charge refused for want of a pack is ignored when redelivered |
| `Monitor.StructuringAgrees` | bdpay/compliance/monitor.py:382-411 | the structuring verdict depends only on the charges inside the window, in any order |
| `Monitor.VelocityAgrees` | bdpay/compliance/monitor.py:382-427 | likewise for velocity |
| `Monitor.RehydratedCount` | bdpay/compliance/monitor.py:182-217 | the rehydrated history holds, for every subject, exactly the stored charges since the cut-off, each with the time of its row |
| `Monitor.HistoriesAgreeExactly` | bdpay/compliance/monitor.py:182-217 | after any run, running and rehydrated history agree from a given time on if and only if every evaluated payment with either of its times in reach has one time, not before the cut-off, and no unevaluated one was stored since |
| `Monitor.RestartIsInvisible` | bdpay/compliance/monitor.py:182-217 | after any run under that condition, every later delivery of a new event draws the same reply and the same structuring and velocity verdicts as from a monitor that never stopped, up to the order of the contributing payments |
| `Monitor.VelocitySurvivesExactly` | bdpay/compliance/monitor.py:182-217 | for every run and store of payments charged once, all later velocity verdicts survive the restart if and only if every evaluated payment of the last 24 hours has one time, not before the cut-off, and none that was refused for want of a pack, or is ahead of its event, was stored since |
| `Monitor.NothingForgottenExactly` | bdpay/compliance/monitor.py:182-217 | with events dated at most some lag after their payments, no run forgets a payment that velocity needs if and only if the structuring window is at least 24 hours and that lag |
| `Monitor.DelayedEventAlertsTwice` | bdpay/kernel/orchestrator.py:2134-2142 | an event dated one instant after its payment, a restart, one later charge: both monitors alert, under different window starts, which are two alerts |
| `Monitor.RefusedChargeReturnsAtRestart` | bdpay/compliance/monitor.py:182-250 | one charge refused for want of a pack, a restart, one later charge: passed by the uninterrupted monitor, an alert from the restarted one |
| `Monitor.RedeliveryAfterRestartIsEvaluatedAgain` | bdpay/compliance/monitor.py:170-182 | after any run and a restart, a redelivered event that the running monitor ignores is evaluated again if and only if it is a well-formed charge and a pack is active |
| `Monitor.RedeliveredChargeCountsTwice` | bdpay/compliance/monitor.py:170-182 | an event delivered before and again after a restart counts its charge twice |
| `Dormancy.DormancySurvivesExactlyWhenRemembered` | bdpay/compliance/monitor.py:182-217 | the dormancy rule judges all later charges of a subject alike after a restart if and only if nothing was charged, or the last payment was kept and, unless the subject is dormant anyway, has one time in row and event and a dormancy that ended in the last 24 hours is remembered by its own time |
| `Dormancy.TrackSays` | bdpay/compliance/monitor.py:252-266 | what is kept of a subject is its charges, the time of the last and of the last that ended a dormancy |
| `Dormancy.DormancyAlertsExactly` | bdpay/compliance/monitor.py:459-486 | over every run of a subject’s charges after a dormancy: the alert exactly when the last dormancy ended at most 24 hours before and enough charges lie since, with their names and sum; passed exactly when it ended earlier |
| `Dormancy.NoDormancyNoAlert` | bdpay/compliance/monitor.py:459-486 | no alert where no dormancy has ended |
| `Dormancy.StoreListsTheRest` | bdpay/kernel/repository.py:344-365 | the store lists a subject’s payments from the cut-off on, by the time of their rows |
| `Dormancy.AlikeJudge` | bdpay/compliance/monitor.py:459-486 | two tracks that differ only in forgotten charges and dormancies long over give the same verdict |
| `Monitor.TransactionMonitor.constructor` | bdpay/compliance/monitor.py:182-217 | start-up computes the rehydrated history |
| `Monitor.TransactionMonitor.IntakeEvent` | bdpay/compliance/monitor.py:225-323 | one envelope is one step, with the verdicts it draws from the window rules its pack holds; over runs these are those of `Verdicts.EveryVerdictIsAboutItsWindow` |
| `StrFiling.EveryRunIsSound` | bdpay/compliance/str_workflow.py:328-605 | in every run, overlapping attempts included: FILING_PENDING has budget left, the escalation flag holds exactly in FILING_FAILED with the budget spent, a retry time exists exactly in FILING_FAILED with budget left |
| `StrFiling.EveryGuardedRunKeepsTheBook` | bdpay/compliance/str_workflow.py:492-557 | in every run in which no call meets an open one, the calls made are those answered and the one open, so never more than the budget |
| `StrFiling.BeginKeepsBookExactlyWhenIdle` | bdpay/compliance/str_workflow.py:492-503 | starting an attempt keeps that book if and only if none is open or the payload cannot be built |
| `StrFiling.BookIsKeptExactlyWithoutOverlap` | bdpay/compliance/str_workflow.py:492-557 | the book is kept throughout a run if and only if no call of the run met an open one |
| `StrFiling.ConfirmationLastsExactlyWhenIdle` | bdpay/compliance/str_workflow.py:492-605 | a confirmed filing stays confirmed, whatever comes, if and only if no attempt on it is still open |
| `StrFiling.ApprovedIsForever` | bdpay/compliance/str_workflow.py:328-605 | an approved report is never withdrawn and keeps its approval and due times, overlapping attempts included |
| `StrFiling.RefusalsChangeNothing` | bdpay/compliance/str_workflow.py:328-605 | a refused operation changes nothing, but for an approval whose payload cannot be built, where the decision stands unqueued |
| `StrFiling.OverlapIsUnbounded` | bdpay/compliance/str_workflow.py:492-557 | overlapping attempts are not held by the budget: any number of calls can be open |
| `StrFiling.OverlapLosesConfirmation` | bdpay/compliance/str_workflow.py:492-557 | an attempt still open at confirmation turns FILING_CONFIRMED back into FILING_FAILED |
| `StrFiling.EveryFailureBacksOff` | bdpay/compliance/str_workflow.py:505-527 | with the book kept, the k-th failure is put off by min(initial * 2^(k-1), cap) or, if it was the last allowed, escalated |
| `StrFiling.ConfirmsOnlyItsReference` | bdpay/compliance/str_workflow.py:583-596 | a filing is confirmed exactly under the reference the connector gave it |
| `StrFiling.ReportsMoveExactly` | bdpay/compliance/str_workflow.py:328-605 | the exact operations and answers that bring a report to each status, and that nothing else does; the caller is told done exactly when it moved on |
| `StrFiling.FirstDecisionCounts` | bdpay/compliance/str_workflow.py:328-415 | over every run, overlapping attempts included, a report is under review until the first decision let through, and then withdrawn, or approved at its time with the filing clock running from it |
| `StrFiling.RefusalsSayWhy` | bdpay/compliance/str_workflow.py:328-605 | a refusal names the first check that fails, each exactly: the state, the role, then declaration, reason, budget or reference |
| `StrFiling.DelaysGrow` | bdpay/compliance/str_workflow.py:508-513 | the back-off is at least a second, never shrinks, doubles below the cap and never passes it |
| `StrTick.RunKeepsOk` | bdpay/app.py:3748-3790 | whatever both sweeps and the requests do, in any interleaving, every stored report and every snapshot in flight stays sound |
| `StrTick.ApprovedStaysApproved` | bdpay/app.py:3748-3790 | an approved report is never withdrawn or lost and keeps its due time, however the sweeps overlap |
| `StrTick.EveryApartRunKeepsTheBudget` | bdpay/platform/scheduler.py:392-412 | over every run whose ticks all start with their sweeps apart, clock readings within a tick falling anywhere: at most one call per report in each tick, and in all of them never more than the budget |
| `StrTick.StepKeepsCalm` | bdpay/app.py:3748-3790 | each piece of such a tick, the passing of time included, keeps the books of every report and what the sweeps have on their lists |
| `StrTick.ByStatusLists` | bdpay/compliance/str_workflow.py:172-173 | a status query lists each report of that status once |
| `StrTick.DueIdsList` | bdpay/app.py:3757-3765 | the retry list holds each failed report with budget whose back-off has passed, once |
| `StrTick.RetryTurnsExactly` | bdpay/app.py:3748-3770 | the retry sweep ends at the end of its list, breaks off at a report that is not failed with budget or cannot be built, then with the report reopened all the same, and else calls |
| `StrTick.FilingTurnsExactly` | bdpay/app.py:3772-3790 | likewise for the pending reports of the filing sweep |
| `StrTick.RequestsActExactly` | bdpay/compliance/str_workflow.py:328-605 | requests decide, withdraw and confirm the report they name; queueing and retrying are the sweeps’ |
| `StrMeeting.TickCallsOnceExactlyWhenApart` | bdpay/platform/scheduler.py:392-412 | with filing and retry gathered in one tick, every interleaving, with any clock readings up to the last of the tick, calls the connector at most once per report if and only if no report is approved and unqueued or none is due for retry by then, and none to be filed could fail and be due again by then |
| `StrMeeting.MeetingTick` | bdpay/app.py:3748-3790 | otherwise an interleaving: filing awaits an approved report, retry reopens and calls a due one, filing then lists and calls it again |
| `StrMeeting.MeetingIsReachable` | bdpay/platform/scheduler.py:392-412 | from an empty store and with a budget of two or more, a run that calls the connector twice for one report within a tick |
| `StrMeeting.ComingBackTick` | bdpay/app.py:3748-3790 | an interleaving for a report that can come back: filing calls for it, the call fails, time passes, retry calls for it again |
| `StrMeeting.ComingBackIsReachable` | bdpay/app.py:3748-3770 | such a tick from an empty store, with nothing approved and nothing due when it starts and lasting as long as the first retry delay |
| `StrMeeting.OneCallNeverMeets` | bdpay/compliance/str_workflow.py:505-527 | with a budget of one the sweeps never meet |
| `StrMeeting.FilingReachesAllDue` | bdpay/app.py:3772-3790 | whatever runs beside it, a filing sweep that is not cut short has called for every report due at its start |
| `StrMeeting.ApartSweepIsNotCutShort` | bdpay/app.py:3772-3790 | in a tick whose sweeps cannot meet only a payload that cannot be built cuts filing short |
| `StrWorkflow.OverdueLaneIsExact` | bdpay/compliance/camlco.py:54-84 | the overdue lane holds exactly the approved, unconfirmed reports past the filing clock |
| `StrWorkflow.Workflow.constructor` | bdpay/compliance/str_workflow.py:187-206 | an empty store |
| `StrWorkflow.Workflow.CreateReport` | bdpay/compliance/str_workflow.py:210-270 | a new report, refused for an id that exists |
| `StrWorkflow.Workflow.CamlcoApprove` | bdpay/compliance/str_workflow.py:328-377 | the decision sets approval and due time and queues at once; the reply for each refusal; a payload that cannot be built leaves the report decided |
| `StrWorkflow.Workflow.WithdrawReport` | bdpay/compliance/str_workflow.py:379-413 | only a report under review can be withdrawn, by the CAMLCO and with a reason |
| `StrWorkflow.Workflow.QueueFiling` | bdpay/compliance/str_workflow.py:417-437 | only a decided report is queued |
| `StrWorkflow.Workflow.RetryFiling` | bdpay/compliance/str_workflow.py:559-581 | only a failed report with budget left is reopened, and its retry time cleared |
| `StrWorkflow.Workflow.ConfirmFiling` | bdpay/compliance/str_workflow.py:583-605 | only a submitted report is confirmed, under its own reference |
| `StrWorkflow.Workflow.BeginAttempt` | bdpay/compliance/str_workflow.py:492-503 | an attempt up to the connector call, refused unless the report is pending and its payload can be built |
| `StrWorkflow.Workflow.LandAttempt` | bdpay/compliance/str_workflow.py:503-557 | the row read before the call is written back with its outcome |
| `StrWorkflow.Workflow.Suspend` | bdpay/platform/scheduler.py:392-412 | while filing awaits the connector any run of retry pieces and requests |
| `StrWorkflow.Workflow.AwaitFiling` | bdpay/compliance/str_workflow.py:503-557 | after which the sweep goes on from where it was |
| `StrWorkflow.Workflow.CallApproved` | bdpay/app.py:3783-3786 | queue an approved report and call for it, or break off |
| `StrWorkflow.Workflow.VisitApproved` | bdpay/app.py:3783-3786 | one turn of the first loop |
| `StrWorkflow.Workflow.VisitPending` | bdpay/app.py:3787-3789 | one turn of the second loop |
| `StrWorkflow.Workflow.VisitFailed` | bdpay/app.py:3757-3770 | one turn of the retry loop |
| `StrWorkflow.Workflow.FileApprovedReports` | bdpay/app.py:3783-3786 | the first loop of the filing sweep is a run of the tick |
| `StrWorkflow.Workflow.FilePendingReports` | bdpay/app.py:3787-3789 | so is the second |
| `StrWorkflow.Workflow.FilingSweep` | bdpay/app.py:3772-3790 | with the retry sweep and requests running at every call: a run of the tick; when not cut short every report due at its start was called; once each, and cut short only by a payload, when the sweeps cannot meet |
| `StrWorkflow.Workflow.RetrySweep` | bdpay/app.py:3748-3770 | likewise a run of the tick, over the reports due when it starts |
| `Approvals.EveryGrantIsFourEyes` | bdpay/platform/approval.py:419-675 | over every run a granted request was granted by someone else, and an action and subject have at most one undecided request |
| `Approvals.GrantIsForever` | bdpay/platform/approval.py:633-675 | a grant is never taken back and keeps its approver |
| `Approvals.NoGrantAfterExpiry` | bdpay/platform/approval.py:683-712 | a request not decided within its 24 hours is never granted afterwards |
| `Approvals.RequestsMoveExactly` | bdpay/platform/approval.py:419-712 | the exact operations, callers and times that bring a request to each state, and what it keeps |
| `Approvals.RequestsAppearExactly` | bdpay/platform/approval.py:423-497 | a request appears exactly for a new id on a matter with no live one, pending for 24 hours |
| `Approvals.EveryRequestLastsADay` | bdpay/platform/approval.py:419-712 | over every run a request expires a day after it was asked for, and a granted one was approved by somebody else within that day |
| `Approvals.TwoLiveRequests` | bdpay/platform/approval.py:633-656 | two live requests for one action and subject can exist, contrary to the documented rule |
| `Approvals.OneLiveExactlyWhenNoFailureBesideIt` | bdpay/platform/approval.py:419-675 | over a whole run there is never more than one live request per action and subject if and only if no failed execution is recorded while another request for the same matter is live |
| `Approvals.StepKeepsOneLive` | bdpay/platform/approval.py:419-675 | every other operation keeps it |
| `Alerts.EveryRunConservesHolds` | bdpay/compliance/alerts.py:434-644 | for every alert and payment, holds placed minus released is the payment’s multiplicity while the freeze applies and zero otherwise |
| `Alerts.EveryClosedCaseHadTwoPeople` | bdpay/compliance/alerts.py:566-592 | a closed alert that had a case carries an approval of that closure by someone other than its initiator |
| `Alerts.EveryAlertIsNotifiedTwiceAtMost` | bdpay/compliance/alerts.py:647-688 | escalation notices per alert never exceed two, nor one before triage |
| `Alerts.TriageNotifiesOnceExactlyAfterAnEarlierNotice` | bdpay/compliance/alerts.py:647-688 | triage sends a single notice if and only if one was sent before triage began |
| `Alerts.TriagedEarlyIsNotifiedTwice` | bdpay/compliance/alerts.py:647-688 | a run from the empty store in which an alert triaged at once is notified twice |
| `Alerts.SweepNotifiesExactlyTheOverdue` | bdpay/compliance/alerts.py:647-688 | a sweep notifies exactly the alerts overdue in their stage and not yet notified for it, once each |
| `Alerts.EveryMoveIsLegal` | bdpay/compliance/alerts.py:401-643 | an alert reaches another status if and only if the transition table, the role, the kernel and the approval allow it |
| `Alerts.AlertsCarry` | bdpay/compliance/alerts.py:401-688 | what an alert is about and when it was raised never change; it is dated by its triage; only escalation counts notices |
| `Alerts.CasesCarry` | bdpay/compliance/alerts.py:434-644 | its case flag and freeze flag are set and cleared exactly by opening and closing a case |
| `Alerts.AlertsAppearExactly` | bdpay/compliance/alerts.py:254-336 | an alert appears exactly for a new trigger, raised then, with nothing done about it |
| `Alerts.FrozenExactly` | bdpay/compliance/alerts.py:434-644 | a subject is frozen exactly by a case opened with a freeze and thawed exactly by closing one that froze it |
| `Alerts.RequestsFollow` | bdpay/compliance/alerts.py:527-592 | closing a case only asks for its approval; nothing else but the gateway itself touches the requests |
| `Alerts.EveryAlertIsDated` | bdpay/compliance/alerts.py:254-432 | over every run the times of raising and triage are those of the calls that did it |
| `Alerts.ReplayRaisesNothing` | bdpay/compliance/alerts.py:254-283 | a replayed trigger changes nothing, and a key names one alert |
| `Alerts.TerminalIsForever` | bdpay/compliance/alerts.py:496-525 | filed and closed alerts never change; a filed one keeps its freeze and all its holds |
| `Alerts.ClosingKeepsCoverExactlyWhenAlone` | bdpay/compliance/alerts.py:594-611 | closing a freezing case leaves every other freezing alert’s subject frozen if and only if none shares the subject |
| `Alerts.OtherStepsKeepCover` | bdpay/compliance/alerts.py:401-688 | no other step leaves a freezing alert with an unfrozen subject |
| `Alerts.CoverHoldsExactlyWithoutASharedThaw` | bdpay/compliance/alerts.py:401-688 | over a whole run every freezing alert’s subject stays frozen if and only if no case is closed whose freeze another alert shares |
| `Alerts.ClosingOneCaseThawsTheOther` | bdpay/compliance/alerts.py:566-611 | a run from the empty store with two freezing cases on one subject: closing one by two people thaws the other’s |
| `Alerts.RunKeepsInv` | bdpay/compliance/alerts.py:254-688 | rows, holds, approvals and notices stay consistent over every run |
| `AlertService.SendHolds` | bdpay/compliance/alerts.py:477-493 | one hold event per contributing payment, in order |
| `AlertService.RepliesAreTrue` | bdpay/compliance/alerts.py:340-592 | the caller is refused exactly when nothing changed and told done exactly when the alert moved to the operation’s target |
| `AlertService.RefusalsSayWhy` | bdpay/compliance/alerts.py:340-592 | a refusal names the first thing wrong: the alert, its state, the role, then what the operation itself needs, each exactly |
| `AlertService.SweepStage` | bdpay/compliance/alerts.py:662-688 | one stage of the sweep notifies exactly the due alerts, in order |
| `AlertService.AmlAlertService.constructor` | bdpay/compliance/alerts.py:233-250 | an empty service |
| `AlertService.AmlAlertService.RaiseAlert` | bdpay/compliance/alerts.py:254-336 | the existing alert of the key or a new one |
| `AlertService.AmlAlertService.StartTriage` | bdpay/compliance/alerts.py:401-432 | one step, with the reply or the refusal told |
| `AlertService.AmlAlertService.Open` | bdpay/compliance/alerts.py:434-494 | a case is opened with freeze and holds, or not at all when the kernel is down; the reply or the refusal told |
| `AlertService.AmlAlertService.FileStr` | bdpay/compliance/alerts.py:496-525 | one step, with the reply or the refusal told |
| `AlertService.AmlAlertService.FinalizeClose` | bdpay/compliance/alerts.py:594-643 | unfreeze first; on failure nothing changes |
| `AlertService.AmlAlertService.RequestClose` | bdpay/compliance/alerts.py:527-564 | from a case only an approval request is made; the reply or the refusal told |
| `AlertService.AmlAlertService.CompleteInCaseClose` | bdpay/compliance/alerts.py:566-592 | completes only on an approval that names this alert; the reply or the refusal told |
| `AlertService.AmlAlertService.NotifyStage` | bdpay/compliance/alerts.py:662-688 | one stage as one value |
| `AlertService.AmlAlertService.RunEscalations` | bdpay/compliance/alerts.py:647-688 | the sweep is one step and returns the ids notified |
| `DossierArchive.VerifySealed` | bdpay/compliance/dossier.py:1203-1221 | the check loop decides the specified predicate |
| `DossierArchive.VerifiesExactlyTheMembers` | bdpay/compliance/dossier.py:1184-1221 | against the manifest of some members the check passes exactly the archives holding those members and no others, byte for byte, for an injective digest |
| `DossierArchive.VerifiesMeans` | bdpay/compliance/dossier.py:1184-1221 | for any digest the check passes exactly the archives that open with manifest.json, whose other names are the members’ in some order, and where each member read has the digest and length of the original |
| `DossierArchive.SealedVerifies` | bdpay/compliance/dossier.py:673-685 | a freshly sealed archive passes, whatever the digest, even with a member called manifest.json |
| `DossierArchive.SortedNamesAre` | bdpay/compliance/dossier.py:1212-1216 | the sorted name comparison holds exactly when the names are the listed paths in some order |
| `DossierExports.EveryEventIsWrittenOnce` | bdpay/compliance/dossier.py:784-925 | under any interleaving of workers, sweeps and deaths: the pickup and the ending of an export are each written at most once, and exactly once if and only if the row has got there, nobody is about to append the event and nobody died between save and append |
| `DossierExports.OneClaimant` | bdpay/compliance/dossier.py:784-800 | an export is held by at most one worker at a time |
| `DossierExports.OthersKeepDebts` | bdpay/compliance/dossier.py:784-925 | nobody appends another’s event, and what is written stays |
| `DossierSweeps.DeathSilencesAnEnding` | bdpay/compliance/dossier.py:868-900 | a run in which a worker dies between its save and its audit event: the export is FAILED and its ending never written |
| `DossierSweeps.ListIsWorkedToItsEndExactlyWhenNotOvertaken` | bdpay/compliance/dossier.py:912-925 | a sweep at the end of its list has failed every export on it if and only if nobody else ended one while it stood there |
| `DossierSweeps.OvertakenSweepDropsTheRest` | bdpay/compliance/dossier.py:912-925 | a run in which an export ends while on the list: the sweep stops there and a stale export is left assembling |
| `DossierExports.DownloadIsCompletedAndVerified` | bdpay/compliance/dossier.py:937-954 | a download is served exactly for COMPLETED exports and matches the stored manifest |
| `DossierExports.EndingIsForever` | bdpay/compliance/dossier.py:180-190 | the first ending wins: no late worker or sweep changes the row or what is served for it |
| `DossierExports.OnlyTheClaimantCompletes` | bdpay/compliance/dossier.py:784-925 | over any run of the others a claimed export is as it was or failed; claim and archive are untouched |
| `DossierExports.EveryMoveIsForward` | bdpay/compliance/dossier.py:784-925 | an export reaches another phase if and only if: claimed by a free worker’s pickup, completed by the claimant that stored an archive, failed by the claimant or by a sweep at it |
| `DossierExports.ExportsAppearExactly` | bdpay/compliance/dossier.py:739-773 | an export appears exactly when a new one is queued |
| `DossierExports.StoresItsMembers` | bdpay/compliance/dossier.py:784-867 | a free claimant with nothing stored yet stores the archive of its members and their manifest |
| `DossierExports.ObjectsStay` | bdpay/compliance/dossier.py:784-867 | nothing else writes an archive |
| `DossierExports.AtWorkExactly` | bdpay/compliance/dossier.py:784-925 | a worker is on an export exactly from its claim until it completes or fails it, or dies |
| `DossierExports.ListsExactly` | bdpay/compliance/dossier.py:912-925 | a free sweep lists what it is given exactly when all of it is assembling and past the timeout |
| `DossierExports.ListsShrinkExactly` | bdpay/compliance/dossier.py:912-925 | a sweep’s list loses the export it fails, and is dropped whole at an ended one or at its death |
| `DossierExports.SweepsListOnlyStale` | bdpay/compliance/dossier.py:912-925 | whatever stands on a sweep’s list was older than the timeout when it was listed |
| `DossierExports.RunKeepsInv` | bdpay/compliance/dossier.py:784-925 | the export invariant survives every interleaving |
| `DossierListing.PagesAreEverything` | bdpay/compliance/dossier.py:161-206 | following the cursor ends, meets no unknown cursor, and concatenates to the full list, newest first and by descending id at the same time, each export once, every page but the last full |
| `DossierListing.CursorsRefusedExactly` | bdpay/compliance/dossier.py:195-206 | a page is refused exactly for a cursor that names no export |
| `DossierListing.RestIsSteadyExactlyWhenNoneFollows` | bdpay/compliance/dossier.py:195-206 | exports queued between two pages leave the rest of the listing alone if and only if none of their keys lies after the cursor’s |
| `DossierService.StaleIdsInOrder` | bdpay/compliance/dossier.py:912-925 | the sweep lists the stale exports in the order of the store |
| `DossierService.DossierExportService.constructor` | bdpay/compliance/dossier.py:700-735 | an empty service |
| `DossierService.DossierExportService.QueueExport` | bdpay/compliance/dossier.py:739-773 | queueing is idempotent |
| `DossierService.DossierExportService.BeginAssembly` | bdpay/compliance/dossier.py:211-220 | a claim succeeds exactly on an unclaimed QUEUED export |
| `DossierService.DossierExportService.AppendEvent` | bdpay/compliance/dossier.py:795-806 | an event is appended in a piece of its own, after the save it reports |
| `DossierService.DossierExportService.PickUp` | bdpay/compliance/dossier.py:784-806 | claim and report of the pickup, others running in between |
| `DossierService.DossierExportService.SaveEnded` | bdpay/compliance/dossier.py:180-190 | a terminal row is never overwritten; an accepted save leaves its event to append |
| `DossierService.DossierExportService.Suspend` | bdpay/compliance/dossier.py:784-925 | whatever others do between two pieces |
| `DossierService.DossierExportService.Await` | bdpay/compliance/dossier.py:784-866 | what others can do to a claimed export meanwhile |
| `DossierService.DossierExportService.AppendLater` | bdpay/compliance/dossier.py:837-866 | the ending stays as saved until its event is appended |
| `DossierService.DossierExportService.SealAndPut` | bdpay/compliance/dossier.py:811-818 | sealing always passes its own check and stores the archive |
| `DossierService.DossierExportService.FinishComplete` | bdpay/compliance/dossier.py:832-866 | completes and reports it, unless a sweep was first |
| `DossierService.DossierExportService.FinishFail` | bdpay/compliance/dossier.py:868-908 | fails and reports it, unless a sweep was first |
| `DossierService.DossierExportService.StoreAndComplete` | bdpay/compliance/dossier.py:811-866 | ends COMPLETED with the manifest of these members, or finds the export failed |
| `DossierService.DossierExportService.Assemble` | bdpay/compliance/dossier.py:784-866 | one worker pass under any interleaving: the outcomes, the row they leave, and pickup and own ending each reported once |
| `DossierService.DossierExportService.DownloadExport` | bdpay/compliance/dossier.py:937-954 | bytes exactly for completed exports, matching the manifest |
| `DossierService.DossierExportService.FailNext` | bdpay/compliance/dossier.py:912-925 | one listed export is failed, or the sweep stops |
| `DossierService.DossierExportService.FailOne` | bdpay/compliance/dossier.py:912-925 | one listed export with its event |
| `DossierService.DossierExportService.FailListed` | bdpay/compliance/dossier.py:912-925 | the sweep loop fails and reports a prefix of its list, all of it when it ends |
| `DossierService.DossierExportService.SweepTimeouts` | bdpay/compliance/dossier.py:912-925 | a finished sweep failed every export stale at its start; a stopped one met an export that had ended; every ending it brought about is reported once |
| `Migrations.CrashesDoNotMatter` | docker/run_migrations.py:96-129 | any number of runs cut short anywhere and then a complete one give the effects, bookkeeping and exit of a single complete run |
| `Migrations.WalkResumes` | docker/run_migrations.py:102-123 | a complete walk after an interrupted one ends where a complete walk alone ends |
| `Migrations.CompleteRun` | docker/run_migrations.py:96-129 | a run works the files in order of their names and completes if and only if no applied file was edited; otherwise it stops at the first edited one, whose row stays, with exactly the unapplied files before it applied, in that order |
| `Migrations.FreshRun` | docker/run_migrations.py:96-129 | on a fresh database every file is applied once, in ascending order of name, and the books equal the file set |
| `Migrations.EmptySetIsTold` | docker/run_migrations.py:86-95 | an empty file set is an error of its own and changes nothing |
| `Migrations.BookGrows` | docker/run_migrations.py:116-121 | bookkeeping rows are never rewritten |
| `Migrations.WalkIsPending` | docker/run_migrations.py:102-123 | a walk applies exactly the pending files up to where it stops |
| `Migrations.Connection.constructor` | docker/run_migrations.py:91-99 | a connection holds the database it was given |
| `Migrations.Connection.Transaction` | docker/run_migrations.py:116-121 | file and bookkeeping row land together |
| `Migrations.Connection.Migrate` | docker/run_migrations.py:96-129 | the run method computes the specified end, whose order is that of `CompleteRun` and `FreshRun` |
| `Migrations.Connection.ApplyAll` | docker/run_migrations.py:102-123 | the loop computes the specified walk |

## Left out

- Postgres stores and SQL: the in-memory contracts are modelled; transactions matter only in the migration runner.
- Concurrent dispatches of one reference: calls on one reference are taken one after the other, and adapters answer for the reference they were asked about.
- Two overlapping webhook sweeps and two overlapping CTR filing loops: one of each is modelled, with everything else interleaved.
- Hashing, signatures and ZIP encoding: a digest is any function (injective where a lemma needs it), an archive its list of named entries, and content-derived ids are inputs.
- XML rendering and XSD validation; building an STR payload, which is an input. For a CTR payload the check of its account is modelled; its other checks hold of every row.
- `requeue` of a rejected goAML filing, which nothing in the repository calls, and the submit sweep’s retries: the connector’s answers are inputs.
- Audit, outbox and notification payloads: only the events a theorem counts are kept (holds, notices, pickups, terminal events, connector calls). Where save and append are one piece here (STR, CTR, alerts), a death between them is not modelled.
- Timestamps that no theorem reads (submitted, confirmed, closed, decided) and free-text fields.
- Monitor.TransactionMonitor.IntakeEvent: draws the structuring and velocity verdicts; the dormancy rule is modelled apart, for one subject whose charges arrive in order of time, and the mule rule and the raising of alerts from verdicts are left out.
- Dormancy.DormancySurvivesExactlyWhenRemembered: takes every stored payment as evaluated and its rows and events as in the same order; refused and undelivered ones are treated in `Monitor`.
- Facts and literals of a rule that are lists, other than the right-hand side of `in`; the loader of rule packs and its supersede-then-insert order.
- CTR totals across a process restart, the annual batch, and amount parsing beyond valid or not.
- The certification battery, its run records and the demo-script validator other than its cap; member assembly of a dossier.
- Health checks, configuration parsing, application wiring, HTTP, credential back-ends, sanctions lanes of the CAMLCO queue.
- Approvals.EveryGrantIsFourEyes: models the gateway on values and without its action catalogue and amount thresholds, because case closure always needs approval.
- DossierListing.PagesAreEverything: is about a fixed set of exports; what new ones do to the next pages is `RestIsSteadyExactlyWhenNoneFollows`.
- Netting.DeriveDemoTransfers: the words of the digest are an input and its reference string is left out.
