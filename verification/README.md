# VoxSDK: a verified model of its state machines

VoxSDK is an event-driven SIP client. Almost all of its logic runs as atomic
handler steps on one thread: timers fire, SDP arrives, calls close, and a few
flags and counters decide what happens next. This project models those machines
in Dafny and proves what they keep over every run; baresip, libre and the
operating system are the environment and may answer anything at any time.

| file | what it models |
|---|---|
| `History.dfy` | event logs, one-shot timers |
| `Handover.dfy`, `HandoverTables.dfy` | the debounce and transport-reset machine of `src/netmon.c`, and the grammar of its events |
| `Migration.dfy`, `RepairProofs.dfy`, `RepairVerdicts.dfy`, `RepairRuns.dfy`, `RepairClasses.dfy` | media repair per call, the shared verify timer |
| `Registration.dfy`, `RegistrationProofs.dfy`, `RegistrationTables.dfy`, `RegistrationPosts.dfy`, `RegistrationRuns.dfy`, `RegistrationClasses.dfy`, `RetryClock.dfy` | registration recovery: retry, watchdog, keepalive, handover |
| `IceSession.dfy`, `IceProofs.dfy`, `IcePairs.dfy`, `IceClasses.dfy` | the ICE interposition of `src/ice_shim.c` |
| `EventQueue.dfy`, `EventQueueProofs.dfy`, `EventDelivery.dfy` | the event thread and the handler swap, as interleaved threads |
| `DnsLookup.dfy`, `DnsTargets.dfy` | the NAPTR to SRV lookup (section 4 of RFC 3263) |
| `WsRegistry.dfy`, `WsProofs.dfy` | WebSocket server pinning |
| `Fmtp.dfy`, `Stats.dfy`, `Urls.dfy`, `Decimal.dfy`, `CStrings.dfy` | fmtp rewriting, loss windows and E-model, URL print and parse |

Each machine appears three times. A value with pure step functions is the
specification; classes with the source's own fields and loops are proved to
compute exactly those steps; and theorems speak about every run, as inductions
over a log of inputs. Runs start from the initial state and take any sequence of
inputs. Most theorems compare the machine with something that does not mention
it: a grammar of events, a ledger read off the event log, a multiset of live
accounts, a split and joined list. A second group states, handler by handler and
in terms of events, numbers and conditions, what happens and exactly when. The classes carry the same invariants in
their `Valid()`, so that they hold of the objects too; their straight-line
helpers are not listed below.

## Where the code and its documentation disagree

The model follows the code. Each item names the lemma that exhibits failing
inputs, as a run from the initial state where there are runs, and `exactly` the
lemma with the if-and-only-if condition.

- Two interfaces do not always alternate (`src/netmon.c:629-633`):
  `RepeatedOffer`; with five addresses rotation sticks on the fifth:
  `FifthIsReached`, `FifthAddressSticks`; exactly `RetryMovesExactly`.
- A handler swap from inside the callback, documented as not blocking, waits for
  ever when another thread is inside a swap (`include/voxsdk.h:1331-1340`):
  `SwapFromCallbackCanDeadlock`, exactly `CallbackSwapReturnsExactly`.
- A push token re-registers without a watchdog, and a handover reaches only 64
  accounts; either can leave RECONNECTING undriven:
  `PushTokenLeavesPromiseUndriven`, `HandoverForgetsOneTooMany`, exactly
  `CoveredExactly`.
- `cancel_retry` keeps the de-duplication signature, so a path lost later or a
  REGISTER that fails the same way again is swallowed: `CancelSwallowsLostPath`,
  `CancelSwallowsFailure`, exactly `CancelSwallowsExactly`.
- register() followed by retry_now() swallows a failure too:
  `RetryNowSwallowsFailure`, exactly `BehindExactly` and `CyclePosts`.
- A register() over a recovery whose REGISTERING is not seen lets the account
  leave RECONNECTING for REGISTERING: `QuietRegisterEndsNoRecovery`, exactly
  `FlagKeptExactly`.
- Re-INVITEs off, or more than 64 calls, strand a pending call:
  `HandoverStrandsAStall`, `SixtyFifthStallIsForgotten`, exactly
  `StrandsExactly`.
- Retry delays may shrink: `DelaysCanShrink`, exactly
  `DelaysNeverShrinkExactly`.
- The WebSocket table can drain while an account it lost is alive:
  `DrainForgetsALiveAccount`, exactly `DrainedPinsTheNext`.
- CQ <= LQ does not always hold: `ConversationCanExceedListening`, exactly
  `DelayNeverHelpsExactly`.
- A host that still holds an `@` does not survive the outbound proxy:
  `TwoUsersDoNotSurvive`, exactly `OutboundFromUrlExactly`.
- The first parameter of an fmtp list needs one byte more than it uses:
  `MarginRefusesAFittingList`, exactly `SetBitrate` with its `Fits`.

## Model

| member | source | states |
|---|---|---|
| `Handover.HandoverTraceGrammar` | src/netmon.c:1261-1429 | over every run of triggers and settle timers the timer is armed exactly while a round is announced, and the emitted events form a word of an independently defined grammar whose phase is the monitor's own state |
| `Handover.RoundShape` | src/netmon.c:1261-1383 | in any word of the grammar the failures of a round count 1, 2, ..., k; an open round has no reset and k below the budget; a closed one has exactly one reset with k below the budget, or none with k equal to it |
| `Handover.RoundsClose` | src/netmon.c:1261-1383 | announcements equal resets plus exhausted budgets plus the round in progress |
| `Handover.DownUpAlternate` | src/netmon.c:1279-1311 | DOWN minus UP is the change of the link state, so the two strictly alternate |
| `Handover.OnlyFailedResetsSpendTheBudget` | src/netmon.c:1267-1383 | the attempt counter grows in a step if and only if the settle timer fires on an unchanged, usable network and the reset fails below the budget; waiting for an address spends nothing and re-arms |
| `HandoverTables.SettleIs` | src/netmon.c:1267-1405 | for each situation of settle_handler the new state, events, timer in milliseconds and actions owed: moved again, no address, link-local or routable, reset done, failed or failed for good |
| `HandoverTables.TriggerIs` | src/netmon.c:1407-1429 | the same for netmon_trigger |
| `Handover.NetMonitor.NetworkTriggered` | src/netmon.c:1407-1429 | netmon_trigger on the monitor record keeps the events a word of the grammar and the timer armed exactly while announced; its new state and the actions owed |
| `Handover.NetMonitor.SettleFired` | src/netmon.c:1267-1405 | settle_handler and apply_handover keep the same invariant: re-scan, debounce again or apply |
| `RepairProofs.RunsKeepOk` | src/netmon.c:516-536 | over every interleaving of handovers, stalls, bounces, closings and verify ticks each call keeps its budget, verdict and stall invariants |
| `RepairProofs.RepairIsBounded` | src/netmon.c:1134-1190 | over a call's whole life: attempts within the budget and strictly within it while waiting, at most one verdict per claim, at most three stall rounds, 10 s apart on a clock that neither reads 0 nor goes back, at most 3 * min(max_attempts, 3) offers made in stall mode |
| `RepairProofs.JudgedTickDecreases` | src/netmon.c:1015-1108 | every verify tick that judges a call decreases (attempts left, state rank) lexicographically |
| `RepairRuns.EveryClaimEnds` | src/netmon.c:1015-1108 | on every run, however handovers, stalls, closings and bounces interleave, a call has been judged at most 4 * max_attempts + 3 times since it was last claimed, and fewer while it is owed a verdict |
| `RepairRuns.StepAdvances` | src/netmon.c:859-1190 | every step of a run makes a claim, or brings each call no further from its verdict, strictly nearer when it judges it |
| `RepairVerdicts.VerdictsOfARun` | src/netmon.c:1064-1100 | on every run a live SENT call of the current generation is judged by the last offer in its events: untouched before that offer's deadline; then MIGRATED if and only if held or packets came in since the offer, failed if not and the offers reached the budget, written out for stall, fail-fast and ordinary rounds, else another attempt |
| `RepairVerdicts.RunsAreInHand` | src/netmon.c:743-805 | on every run a SENT call remembers the number, packet count, address and deadline of that last offer |
| `RepairVerdicts.SendIs` | src/netmon.c:721-812 | one attempt: which of deferral, ICE restart, stale report, re-offer, failure and later retry, with the events told |
| `RepairVerdicts.LocateIs` | src/netmon.c:895-965 | when start_migration waits, needs no offer, or offers, from which address and with the path moved or not |
| `RepairVerdicts.StartIs` | src/netmon.c:859-893 | a new generation starts a live call from nothing |
| `RepairVerdicts.WaitingTickIs` | src/netmon.c:1037-1062 | a verify tick on a STALLED, WAIT_ADDR or DEFERRED call |
| `RepairVerdicts.StallIs` | src/netmon.c:1134-1190 | exactly when a stall report claims a round, and what it resets |
| `RepairVerdicts.FailIfOwedIs` | src/netmon.c:975-996 | an exhausted handover fails exactly the live calls without a verdict |
| `RepairVerdicts.StepIs` | src/netmon.c:975-1215 | what each step of the machine is for each call, the first 64 and the others |
| `RepairVerdicts.TimerIs` | src/netmon.c:1180-1203 | which inputs ask for the verify timer at once |
| `RepairVerdicts.ClocksAgree` | src/netmon.c:516-557 | attempt budgets and judging deadlines in numbers |
| `RepairProofs.NoCallIsStranded` | src/netmon.c:683-718 | with re-INVITEs on and at most 64 calls, every call still owed a verdict carries the current generation and the shared verify timer is armed, over every run |
| `RepairProofs.StrandsExactly` | src/netmon.c:683-1108 | a step leaves a pending call on a stale generation or with the timer stopped if and only if a handover completes without re-INVITEs or with a call pending beyond the snapshot, or a verify tick with a call pending beyond the snapshot leaves none pending within it |
| `RepairRuns.HandoverStrandsAStall` | src/netmon.c:1371-1383 | a run that strands a call: re-INVITEs off, a stall, a completed handover |
| `RepairRuns.SixtyFifthStallIsForgotten` | src/netmon.c:683-718 | a run that strands a call without any handover: the 65th stalls, the tick passes it over and the timer stops |
| `RepairProofs.VerifyTickIsTheSoonest` | src/netmon.c:683-710 | migration_pending returns the minimum of the pending calls' own ticks, attained, and nothing when none is pending |
| `RepairProofs.RetryMovesExactly` | src/netmon.c:574-651 | for every call a rotating retry keeps its address if and only if it is the first the record misses, or the record misses none and it is the first of its family; whenever the record misses one, the first such is offered; the record misses the one in hand if and only if it is full of others |
| `RepairProofs.FifthAddressSticks` | src/netmon.c:583-592 | with the record full of four others every retry offers the address in hand again, and stays in that situation |
| `RepairRuns.FifthIsReached` | src/netmon.c:583-592 | for any five addresses of one family a run from the initial state gets there, with attempts left |
| `RepairRuns.RepeatedOffer` | src/netmon.c:629-651 | the documented alternation of two interfaces is false: a run from the initial state in which the third and fourth offers come from the same one |
| `RepairProofs.SendShape` | src/netmon.c:721-812 | the complete set of outcomes of send_migration on state, attempts and events |
| `RepairProofs.StartShape` | src/netmon.c:859-965 | the complete set of outcomes of start_migration, including the claim of a new generation |
| `RepairProofs.TickShape` | src/netmon.c:1015-1108 | the complete set of outcomes of one call's turn in verify_handler, per state |
| `RepairClasses.RepairCall.PickLaddr` | src/netmon.c:593-614 | the walk over local addresses returns the first untried one of the family |
| `RepairClasses.CallMonitor.RearmVerify` | src/netmon.c:683-718 | the loop of arm_verify computes the soonest pending tick |
| `RepairClasses.CallMonitor.MigrateAll` | src/netmon.c:998-1012 | the snapshot loop applies start_migration to each of the first 64 calls and to no other, and keeps every call within budget and verdict |
| `RepairClasses.CallMonitor.VerifyFired` | src/netmon.c:1015-1108 | the snapshot loop of verify_handler gives each call its turn and re-arms, and keeps every call within budget and verdict |
| `RepairClasses.CallMonitor.FailPending` | src/netmon.c:975-996 | the snapshot loop fails what is owed, once |
| `RegistrationProofs.PromiseNeverUndriven` | src/account.c:590-681 | over every run with any number of accounts, as long as no step is of the two kinds CoveredExactly names, a live wanted account in RECONNECTING has its retry timer, watchdog or keepalive armed, a probe in flight, or the settle timer armed (keepalive on, a host) |
| `RegistrationProofs.FewIsUnbroken` | src/netmon.c:424-456 | with at most 64 live and wanted accounts at a time, however many others exist or existed, the handover kind never occurs |
| `RegistrationProofs.CoveredExactly` | src/netmon.c:458-483 | one step of the system keeps every promise if and only if it is neither a push token, outside a handover, on a flagged and otherwise undriven account in no transitional state, nor a handover letting go with an undriven account beyond its reach |
| `RegistrationProofs.ActionsAre` | src/netmon.c:424-483 | a handover step is its actions, with its own answers, on each of the first 64 eligible accounts, and nothing on any other |
| `RegistrationProofs.AccountStepKeepsExactly` | src/account.c:459-1162 | the same for one account and every handler |
| `RegistrationRuns.PushTokenLeavesPromiseUndriven` | src/account.c:1579-1612 | for every deployment a run from the initial state that ends in RECONNECTING with every timer stopped, the settle timer included |
| `RegistrationRuns.HandoverForgetsOneTooMany` | src/netmon.c:424-483 | the same by a handover on a run with 65 accounts |
| `RegistrationProofs.PushTokenExactly` | src/account.c:1579-1612 | one push token breaks a kept promise if and only if it re-registers a recovering, otherwise undriven account outside a transitional state |
| `RegistrationTables.WatchdogGivesUpExactly` | src/account.c:590-681 | on every run, from the REGISTER of register(), retry_now() or a retry on, n half-second ticks without an answer leave the account watched and the app undisturbed if and only if 500 n is below timer F or that is off; from then on a retry is armed and RECONNECTING told, or FAILED, for a timeout |
| `RegistrationTables.WatchdogAfterHandover` | src/netmon.c:1220-1256 | the same from the re-REGISTER of a handover |
| `RegistrationTables.WatchdogReconciles` | src/account.c:612-637 | an answer that was not reported is found by the next tick and told |
| `RegistrationTables.RegisterRequestIs` | src/account.c:1420-1560 | register(), retry_now(), the retry timer and a handover each send and watch a REGISTER, and what each forgets first |
| `RegistrationTables.FailureIs` | src/event.c:334-470 | REGISTER_FAIL: ended by a rejected password or a spent budget, else the retry on its way or a new one is promised |
| `RegistrationTables.SuccessIs` | src/event.c:334-470 | REGISTER_OK clears what a recovery left behind, probes again and is told |
| `RegistrationTables.ScheduleIs` | src/account.c:1080-1162 | already armed, promised with its delay, or withdrawn |
| `RegistrationTables.KeepaliveIs` | src/account.c:988-1022 | when a probe goes out and when it is put off |
| `RegistrationTables.ProbeAnsweredIs` | src/account.c:887-986 | when an answered probe ends a recovery |
| `RegistrationTables.ProbeLostIs` | src/account.c:887-986 | what a lost probe begins, with and without re-registering |
| `RegistrationTables.LostPathIs` | src/account.c:524-550 | a lost path is told for exactly the registered or registering accounts |
| `RegistrationTables.HandedBackIs` | src/netmon.c:474-483 | an exhausted handover hands exactly the RECONNECTING accounts to the retry policy |
| `RegistrationTables.StopIs` | src/account.c:1445-1541 | unregister and cancel_retry |
| `RegistrationTables.PushTokenIs` | src/account.c:1579-1612 | when a push token re-registers |
| `RegistrationTables.OtherInputsAre` | src/account.c:1358-1507 | an unregistration seen to start, a new policy, the end |
| `RegistrationTables.ReportIs` | src/account.c:491-522 | what telling the app a state changes and posts |
| `RegistrationProofs.SignatureIsHistory` | src/account.c:491-522 | over every run the stored signature is the one spelled by the posted events |
| `RegistrationProofs.DroppedExactlyOnStutter` | src/account.c:491-522 | in every reachable state a report is dropped if and only if it is RECONNECTING with the error, attempt and delay last told since a prepared event of another state |
| `RegistrationProofs.DropRepeatsLastPost` | src/account.c:491-522 | a dropped report equals the last event the app saw if and only if that one was prepared |
| `RegistrationPosts.CancelSwallowsExactly` | src/account.c:1516-1541 | after cancel_retry and register(), a lost path, a failed REGISTER or a lost probe turns the account RECONNECTING and posts nothing if and only if the signature left behind is the very one to come, written out for each of the three |
| `RegistrationRuns.CancelSwallowsLostPath` | src/account.c:1516-1541 | a run from the initial state in which a lost path is swallowed: the app was last told REGISTERING |
| `RegistrationRuns.CancelSwallowsFailure` | src/account.c:1516-1541 | a run in which a REGISTER that fails the same way again is swallowed, without any handover |
| `RegistrationPosts.OneFailureOnePost` | src/event.c:334-470 | on every run without a request that restarts the count behind the signature, a failed REGISTER, its armed retry and the retry's REGISTERING post exactly one event: RECONNECTING with error, attempt and delay |
| `RegistrationPosts.BehindExactly` | src/account.c:1516-1560 | a step lets the signature run ahead of the attempts if and only if it is cancel_retry, or retry_now without a REGISTERING under the flag, on an account whose signature counts attempts |
| `RegistrationPosts.ActionBehindExactly` | src/netmon.c:1220-1256 | for a handover: if and only if a re-REGISTER of such an account is not seen |
| `RegistrationPosts.CyclePosts` | src/event.c:334-470 | in any state such a cycle posts that one event, or none if and only if the stored signature, which unprepared FAILED and REGISTERING events do not reset, already equals it |
| `RegistrationRuns.RetryNowSwallowsFailure` | src/account.c:1550-1560 | a run without cancel_retry in which a failure is swallowed: register(), then retry_now() |
| `RegistrationProofs.ReconnectingEndsInAVerdict` | src/account.c:468-480 | without register or unregister, RECONNECTING is left only for REGISTERED or FAILED |
| `RegistrationProofs.RecoveryIsFlagged` | src/account.c:524-550 | over every run in which each register() over a recovery is seen to start, an account reporting RECONNECTING carries the recovery flag |
| `RegistrationProofs.FlagKeptExactly` | src/account.c:1420-1437 | a step loses the flag if and only if it is a register() over a recovery whose REGISTERING is not seen |
| `RegistrationRuns.QuietRegisterEndsNoRecovery` | src/account.c:1420-1437 | a run with that register(): the retry then leaves RECONNECTING for REGISTERING |
| `RegistrationProofs.HandoverKeepsRecovery` | src/netmon.c:458-483 | no handover action ends a recovery except by FAILED |
| `RetryClock.JitterBounds` | src/account.c:1058-1078 | a jittered delay is never zero and stays within half the span, rounded up |
| `RetryClock.DelaysNeverShrinkExactly` | src/account.c:1126-1138 | the delays armed never shrink, whatever the random numbers, if and only if the first is within the cap, the factor does not shrink it, and jitter spreads no delay of the sequence |
| `RetryClock.DelaysCanShrink` | src/account.c:1126-1138 | an input: a constant second spread by half, armed as 1500 and then 500 ms |
| `RetryClock.BackoffMonotoneExactly` | src/account.c:1126-1133 | before jitter: if and only if the first is within the cap and the factor does not shrink it |
| `RetryClock.BackoffCapped` | src/account.c:1126-1133 | before jitter no delay exceeds the cap, except a first one configured above it |
| `RetryClock.BackoffIsGeometric` | src/account.c:1126-1133 | attempt n waits the first delay multiplied n times, or the cap once that was reached |
| `RegistrationClasses.RegAccount.BackoffDelay` | src/account.c:1126-1133 | the early-leaving loop computes the capped geometric delay |
| `RegistrationClasses.RegAccount.Handle` | src/account.c:459-1162 | every handler on the account record keeps the signature that of the history, the flag exactly while registrations are seen, and a promise but for that push token |
| `RegistrationClasses.WalkAccounts` | src/netmon.c:424-483 | the account snapshot loop applies the action, with each account's own answers, to the first 64 eligible accounts and to no other |
| `IceProofs.FailureIsContained` | src/ice_shim.c:527-652 | on every run baresip's estab handler hears of a failure at most once, and only as its first call |
| `IceProofs.GatheringIsBounded` | src/ice_shim.c:544-652 | restarting implies not released with the deadline armed; with a non-zero timeout, not released implies the deadline is armed |
| `IceProofs.SilentGatherStillOffers` | src/ice_shim.c:622-652 | when that deadline fires an offer is handed over and a later restart is not refused |
| `IceProofs.NoRestartStorm` | src/ice_shim.c:1297-1422 | restarts answering the peer number at most 2 per session, the first non-nested update after a restart of ours schedules none, and candidate re-offers are at most 1 + restarts |
| `IceProofs.EarlyPairLetsFailureBeSecond` | src/ice_shim.c:853-949 | without "a pair only after an offer" the containment fails |
| `IceProofs.NominatedPairWins` | src/ice_shim.c:1065-1121 | on every run, outside an SDP application, a stream with a nominated and released pair sends to it |
| `IceProofs.ExchangeSettles` | src/ice_shim.c:1297-1422 | straight after any update, nested or not, every stream sends to its remembered pair, or without one to the signalled address |
| `IcePairs.PairSurvivesExactly` | src/ice_shim.c:1105-1119 | an established pair outlives an exchange, media pointed back at it, if and only if the peer signals the address it signalled at nomination and does not come with new credentials that answer our restart or find the media unsecured |
| `IcePairs.HeldPairIsDeliveredExactly` | src/ice_shim.c:1065-1104 | a pair held while ringing is delivered if and only if the exchange brings no such credentials |
| `IcePairs.ExchangeIs` | src/ice_shim.c:1297-1422 | every field of every stream after any exchange |
| `IcePairs.RestartIsScheduledExactly` | src/ice_shim.c:1324-1417 | exactly when an exchange schedules a restart of ours, over the peer's credentials |
| `IcePairs.NominationIs` | src/ice_shim.c:853-949 | what a nominated pair changes, when it is held, and when a re-offer is requested, held or sent |
| `IcePairs.HeldReofferIs` | src/ice_shim.c:785-808 | a held re-offer is sent when secured and dropped after its deadline |
| `IcePairs.GatherIs` | src/ice_shim.c:544-616 | when a gather report offers, fails or is swallowed, and the baseline it sets |
| `IcePairs.PrimeIs` | src/ice_shim.c:459-492 | when the checks are primed, and the credentials they set |
| `IcePairs.DeadlineIs` | src/ice_shim.c:622-652 | what the deadline hands over |
| `IcePairs.RestartIs` | src/ice_shim.c:1187-1264 | the refusals of a restart, and everything an accepted one resets |
| `IceProofs.MovedPeerIsFollowed` | src/ice_shim.c:1065-1121 | a peer that signals a new address is followed, the old pair forgotten |
| `IceProofs.UpdateShape` | src/ice_shim.c:1297-1422 | an update moves only the streams, the awaited answer and the schedule of a restart |
| `IceClasses.Session.SyncRemoteUfrag` | src/ice_shim.c:360-404 | the loop stores the peer's credentials and reports whether any changed |
| `IceClasses.Session.ReassertSelected` | src/ice_shim.c:1065-1121 | the loop over streams, each held, moved or re-asserted |
| `IceClasses.Session.RebaseSignalled` | src/ice_shim.c:305-316 | the loop over streams |
| `IceClasses.Session.RestartIce` | src/ice_shim.c:1187-1264 | vox_ice_restart with its loop over streams, and its refusals |
| `IceClasses.Session.Handle` | src/ice_shim.c:527-1422 | every handler on the session object keeps failures contained, gathering bounded, restarts in budget and media on the nominated pair |
| `EventQueueProofs.EveryInterleavingIsSafe` | src/event.c:169-254 | over every interleaving: lock discipline, coherent snapshots, drained swaps, FIFO and balanced references |
| `EventQueueProofs.SwapIsFinal` | src/core.c:579-613 | once a swap returned on another thread than the event thread, nothing runs in or later enters a callback of an older install |
| `EventQueueProofs.DeliveriesAreCoherent` | src/event.c:169-233 | every delivery used the callback, user data and ownership of one single install |
| `EventDelivery.EveryDeliveryObeys` | src/event.c:169-233 | over every interleaving the callbacks entered and the clones made are exactly those the handlers in hand asked for, a borrowed one always and an owned one if its clone was made; every dequeued event has been handed over or is in hand |
| `EventDelivery.CallIs` | src/event.c:200-222 | the delivery step, borrowed, owned, failed clone or no callback: what is entered, cloned and referenced |
| `EventQueueProofs.QueueIsFifo` | src/event.c:169-254 | the counted length is the list's and within the limit; accepted is dequeued followed by listed; at thread exit everything accepted has been dequeued |
| `EventQueueProofs.DeliveredInOrder` | src/event.c:169-233 | deliveries are a subsequence of the dequeued events: in order, none twice |
| `EventQueueProofs.AllReferencesReturn` | src/event.c:33-254 | after the close and the release of clones every wrapper reference was given back exactly as often as taken |
| `EventQueueProofs.StepBalances` | src/event.c:76-254 | each move, full-queue drop, clone, failed clone and shutdown included, keeps taken = returned + queued + in flight + cloned |
| `EventQueueProofs.StepKeepsFifo` | src/event.c:169-254 | each move keeps the list law and only extends what was accepted and dequeued |
| `EventQueueProofs.CallbackSwapReturnsExactly` | src/core.c:579-613 | in every reachable world, a swap called from inside the callback can still return if and only if the API lock is free when it asks for it |
| `EventQueueProofs.DoomedForever` | src/core.c:579-613 | once another thread holds it from inside a swap, no interleaving gets the callback's swap out |
| `EventQueueProofs.SwapFromCallbackCanDeadlock` | include/voxsdk.h:1331-1340 | and that state is reachable for every handler with a callback, every event and thread |
| `EventQueue.SharedQueue.PostQev` | src/event.c:239-255 | enqueue or drop, ownership taken either way |
| `EventQueue.SharedQueue.TakeHead` | src/event.c:180-186 | dequeue at the head |
| `EventQueue.SharedQueue.Close` | src/event.c:788-823 | the final loop frees what is left |
| `DnsLookup.EveryResolveCompletesOnce` | src/dns.c:340-385 | a successful vox_dns_resolve completes exactly once, when nothing is outstanding, with 1 to 16 ordered targets and nothing pending; a failed one never |
| `DnsLookup.CompletesExactlyOnce` | src/dns.c:150-303 | under every order of answers and launch failures the pending count is the number of outstanding queries and completion is their exhaustion |
| `DnsTargets.TargetsOfARun` | src/dns.c:108-303 | under every order of answers and launch failures the targets are the contributions of the answers in order of arrival, cut at 16, and completion gives exactly these in the required order |
| `DnsTargets.SrvIs` | src/dns.c:170-208 | an SRV answer contributes its records field by field, or the bare domain at the transport's port when it names none, and takes its own query off the wire |
| `DnsTargets.NaptrIs` | src/dns.c:214-303 | a NAPTR answer sends a query for each of its first eight usable names, or for the well-known one, that can be sent, and contributes the bare domain when none can |
| `DnsTargets.AddAllIs` | src/dns.c:180-195 | the targets an answer adds are its usable records in order, cut off only at 16 |
| `DnsTargets.PortIsAnswered` | src/dns.c:358-370 | an explicit port is answered at once with the domain and that port |
| `DnsLookup.RepliesConverge` | src/dns.c:214-303 | every expected answer brings completion strictly nearer |
| `DnsLookup.SortOrdersStably` | src/dns.c:133-148 | the result is ordered by priority then descending weight and keeps each rank's targets as they were |
| `DnsLookup.OrderIsUnique` | src/dns.c:133-148 | only one list has that property |
| `DnsLookup.SortTargets` | src/dns.c:133-148 | the in-place insertion sort computes it on the first n entries and leaves the rest alone |
| `DnsLookup.InsertInto` | src/dns.c:138-147 | one pass of the shift loop |
| `DnsLookup.DnsQuery.Complete` | src/dns.c:150-161 | lookup_finish |
| `DnsLookup.DnsQuery.NaptrHandler` | src/dns.c:214-264 | naptr_handler with its query launches |
| `DnsLookup.DnsQuery.SrvHandler` | src/dns.c:170-208 | srv_handler |
| `DnsLookup.DnsQuery.StartQueries` | src/dns.c:268-303 | start_srv_queries and its fallback |
| `WsProofs.ExactIffFew` | src/ws_path.c:135-199 | the table counts every live claim exactly at every moment of a history if and only if it never has more than four distinct servers alive |
| `WsProofs.SettledTableIsExact` | src/ws_path.c:135-199 | once all accounts were gone, the table is again exact, ordered and trusted for as long as at most four servers are alive |
| `WsProofs.PinsFollowTheLiveAccounts` | src/ws_path.c:102-133 | then each pin is the value on which the live accounts agree, or empty |
| `WsProofs.PinsIgnoreHistory` | src/ws_path.c:102-199 | two such histories with the same live accounts leave the same pins |
| `WsProofs.NewestIsLastCreated` | src/ws_path.c:203-216 | and ws_newest is the claim that came to life last |
| `WsProofs.TableNeverInvents` | src/ws_path.c:102-199 | on every history, overflow included, no claim is counted more often than held and the pins are the unanimous table values |
| `WsProofs.OverflowStaysUnpinned` | src/ws_path.c:69-76 | from an overflow until the table drains no server is pinned |
| `WsProofs.DrainedPinsTheNext` | src/ws_path.c:127-133 | a drained table pins the next server; that is right if and only if every live account uses it |
| `WsProofs.DrainForgetsALiveAccount` | src/ws_path.c:127-133 | the comment that every account is gone is false: the table drains while a lost account lives |
| `WsRegistry.OriginInjective` | src/ws_path.c:78-85 | two origins are equal if and only if scheme, host and port are; brackets never confuse hosts |
| `WsRegistry.ClaimsIdentifyServers` | src/ws_path.c:78-85 | the same through the fixed buffer, for every host an account can hold |
| `WsRegistry.Find` | src/ws_path.c:87-97 | the first live entry of a claim |
| `WsRegistry.ServerRegistry.Refresh` | src/ws_path.c:102-133 | the one-pass loop computes the unanimous values |
| `WsRegistry.ServerRegistry.Set` | src/ws_path.c:135-176 | vox_ws_set_server |
| `WsRegistry.ServerRegistry.Unset` | src/ws_path.c:178-199 | vox_ws_unset_server |
| `WsRegistry.ServerRegistry.Newest` | src/ws_path.c:203-216 | the scan returns the live entry with the highest creation number |
| `Fmtp.SetBitrate` | src/adapt.c:114-157 | succeeds if and only if the rewritten list fits the buffer under the loop's own margin, and then leaves exactly that list, terminated |
| `Fmtp.CopyKept` | src/adapt.c:125-147 | the buffer loop refines split, filter and join |
| `Fmtp.RewriteReplaces` | src/adapt.c:99-157 | every other parameter survives in order, and the new bitrate is the only one |
| `Fmtp.KeyIs` | src/adapt.c:130-137 | the parameter replaced is known by its whole key, bare or before an equals sign, in any case |
| `Fmtp.RewriteTwice` | src/adapt.c:107-157 | adapting an adapted list gives the same result and success as adapting the original, in a buffer of any size |
| `Fmtp.MarginRefusesAFittingList` | src/adapt.c:137-138 | the loop's margin refuses a one-parameter list that fits |
| `Stats.DelayNeverHelpsExactly` | src/stats.c:125-149 | for given loss and codec, no jitter buffer and no round trip makes MOS-CQ exceed MOS-LQ if and only if the normalised listening R is off the dip: r <= 0, r (160 - r) >= 1000 or r >= 100 |
| `Stats.ConversationBelowListening` | src/stats.c:125-149 | CQ <= LQ <= 4.5 whenever the listening R is off the dip or the normalised conversational R is at least 4 |
| `Stats.ConversationCanExceedListening` | include/voxsdk.h:494-504 | the header's unconditional CQ <= LQ is false: a G.711 call that loses everything |
| `Stats.BelowOneExactly` | src/stats.c:106-116 | the MOS leaves the documented range exactly on the dip 0 < r, r (160 - r) < 1000 |
| `Stats.MosRises` | src/stats.c:106-116 | from normalised R = 4 on, the score rises with R and is at most 4.5 |
| `Stats.LossNeverHelps` | src/stats.c:125-149 | more loss never raises a listening score, wherever it leaves R at 4 or above or R was off the dip before; in wideband never at all |
| `Stats.Anchors` | src/stats.c:106-149 | the E-model at its anchor values of loss, delay and R |
| `Stats.SimplifiedIs` | src/stats.c:151-171 | the simplified score, its slopes and clamps, CQ never above LQ |
| `Stats.DirectionsAreApart` | src/stats.c:279-352 | each direction is measured and scored from its own counters and jitter alone |
| `Stats.ScoresAre` | src/stats.c:319-352 | which loss, jitter and buffer each score is made from |
| `Stats.LossEnds` | src/stats.c:290-318 | both loss rates and the discard rate at 0, 50 and 100 per cent |
| `Stats.LossRatesArePercentages` | src/stats.c:290-312 | the sending loss lies in [0,100]; the receiving one does if and only if the window's 32-bit sum does not wrap past zero |
| `Stats.WindowsTelescope` | src/stats.c:188-198 | the reported windows add up to the cumulative counter if and only if it never went back |
| `Stats.GettersAreInvisible` | src/stats.c:354-369 | getter calls change no later window, sum or minimum |
| `Stats.MinimumIsLowest` | src/stats.c:361-369 | zero as "none yet" is never mistaken for a score: the session minimum is attained and a lower bound |
| `Stats.CallStats.Fill` | src/stats.c:279-369 | the record stays what its polls made of it, getters included, and its minimum the lowest score of all ticks |
| `Urls.OutboundRoundTripExactly` | src/transport.c:52-211 | parsing the printed outbound proxy returns the same transport, host and port and no path if and only if the host has no delimiter |
| `Urls.OutboundFromUrlExactly` | src/transport.c:182-211 | for a server URL, printing and reading back keeps transport, host and port if and only if the host read has no '@' |
| `Urls.UrlReads` | src/transport.c:52-172 | every ws, wss, sip and sips URL reads as the transport, host, port or the scheme's own, and path it says |
| `Urls.TwoUsersDoNotSurvive` | src/transport.c:137-143 | a URL with two '@' loses part of its host |
| `Urls.AorRoundTripExactly` | src/account.c:1397-1412 | parsing the printed address of record returns user and host, IPv6 included, if and only if the user has no '@' and the host is printable |
| `Urls.HostReads` | src/account.c:85-113 | exactly which hosts survive printing and parsing |
| `Urls.AccountUriReads` | src/account.c:47-114 | every account URI with a user reads as the user up to 63 characters, the host, bracketed or not, and the port it says |
| `Urls.BareAccountReads` | src/account.c:60-73 | without a user, as host and port |
| `Urls.SipsAccountReads` | src/account.c:56-58 | the sips scheme reads like sip |
| `Decimal.ReadBack` | src/transport.c:152-162 | a printed port reads back as itself before any non-digit |
| `Decimal.ReadPortEdges` | src/transport.c:152-162 | blanks, signs, overlong numbers and missing digits read as strtoul and the 16-bit cast have it |

## Left out

- baresip and libre themselves: SIP transactions, ICE checks, DTLS, the DNS client, timers' real clock.
- The handover generation is unbounded here; the source's counter wraps after 2^32 handovers.
- The REGISTERING event is assumed to be raised, if at all, inside ua_register, as baresip does.
- Registration events lost to a full queue or to allocation failure: the posted log of an account is what was handed to the queue.
- Configuration is fixed over a run: voxsdk_network_set_handover_policy and its like change it at run time. `StrandsExactly` holds step by step under whatever configuration is then in force.
- The table from NAPTR service strings to transports (`src/dns.c:73-95`): a record carries its transport, or none.
- SRV failover of a retry (`srv_advance`): it changes where the REGISTER goes, not the machine.
- A nominated pair is assumed to be reported only after an offer; `EarlyPairLetsFailureBeSecond` shows why this matters.
- Allocation failure inside the ICE shim beyond the restart's own.
- Synchronous DNS callbacks: every answer arrives after the query was launched.
- `__wrap_websock_connect`, the loopback rescue and the dialog-route override of `src/ws_path.c`: they only read the pins.
- The bitrate and stall ticks of `src/adapt.c`: clamps and counters that call what is modelled here.
- The codec table of `src/stats.c`: codec parameters are arbitrary with 0 <= Ie <= 95 and Bpl > 0, which every entry satisfies.
- Session average MOS, audio levels and stream identity in `src/stats.c`.
- Floating-point rounding: loss rates, MOS and backoff are real numbers.
- `vox_parse_server_url` and `parse_account_uri` are modelled as functions on strings; buffers appear only as truncation.
- Audio, recording, capture, messaging, presence, headers, tracing, platform glue, bindings, start-up and shutdown: thin adapters or easy bounds.
- Fmtp.SetBitrate: on failure only the bounds of the buffer are stated, not the partial text libre's formatter leaves behind.
- WsRegistry.ServerRegistry.Set: an origin too long for its buffer is cut at the end; account hosts are too short for that to happen (`ClaimsIdentifyServers`).
- Decimal.ReadBack: the port reader assumes a 64-bit unsigned long.
