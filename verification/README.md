# Verified model of the gateway's admission components

The gateway decides on the request path whether a call to a language model may go ahead: is
there money left in the scope's budget, a lease left in the fleet, a permit left in the process,
is the backend's circuit closed. Each of these decisions is a small concurrent state machine
whose promise is about whole runs. This project models them and proves the promises.

| files | component |
|---|---|
| `BudgetWindow`, `BudgetLedger` | one spend window as a value, and its whole runs with history |
| `BudgetMemory`, `BudgetStore`, `BudgetRefinement`, `BudgetLifetime` | the in-process store and reservation handle, the three Lua scripts over strings, how the two relate, and what the death of the Redis keys changes |
| `BudgetMoney` | rounding, prices and scope names |
| `LeaseFleet`, `LeaseTiming`, `RedisAdmission`, `LeaseComposition` | the four lease scripts, the renewal loop's timing, one replica's counters in Redis mode, and these together |
| `LocalAdmission` | the semaphore-and-counters protocol of the local controllers |
| `Circuit`, `RetryBudget` | the circuit breaker and the retry budget |
| `UpstreamCall`, `ChatLifecycle` | the upstream call with its fallback, and a chat completion as a resource and settlement protocol |
| `UsageQueue`, `TenantWindow` | the usage-event emitter and the tenant counters |
| `SseParser`, `DecisionStore`, `Health`, `Routing` | the event-stream reader, the decision store, the health average and the canary choice |
| `Common` | options, sums over maps, counting of tasks, decimal strings |

Code that updates objects in place is a class whose methods are proved equal to steps of a
specification function; whole-run theorems are lemmas about that function. Methods that only
repeat one case of such a function have no row below. Lemmas whose names end in `Exactly` say
what an operation decides and leaves behind in terms of the stored fields and the history, so
that the specification function is pinned down from outside. A section under an
`asyncio.Lock`, or a Lua script, is one atomic step. Money is integer micro-USD, time integer
milliseconds or seconds, prices and health averages are reals. Clock readings, UUIDs, hashes
and the JSON decoder are parameters.

## Where the code and its description differ

- `docs/budget-guard.md` lines 102-104 limit the overspend of a window to the estimate error of
  its requests. A settlement that arrives after its hold expired adds its whole amount, which the
  limit does not count. `BudgetLedger.DocumentedLimitFails` gives the run,
  `BudgetLedger.LateSettleBreaksDocumentedLimit` the exact condition for one call, and
  `BudgetLedger.OverrunIsErrorPlusLate` the limit that does hold.
- The same document refunds errors before the model is called and charges errors after it may
  have run. The handler looks at the last error only. A lost answer of the primary followed by a
  fallback that refuses is refunded (`UpstreamCall.LostThenRefusedIsRefunded`), and open circuits
  or a spent retry budget are charged (`UpstreamCall.OpenCircuitsAreCharged`,
  `UpstreamCall.SpentBudgetIsCharged`). A bookkeeping error, which line 98 charges at the estimate,
  comes after the settlement at the priced usage (`ChatLifecycle.BookkeepingComesTooLate`).
  `UpstreamCall.ChargeFollowsRule` and `ChatLifecycle.ChargedAsDocumented` give the exact conditions.
- The same document describes one behaviour for both stores. They differ on a budget that rounds down to
  zero (`BudgetRefinement.ZeroBudgetsDiffer`) and on tombstones the in-process store has dropped
  (`BudgetRefinement.StoresAgreeUnlessForgotten`).
- When a complete answer's response object cannot be built, the global slot is released twice
  (`app/gateway/routers/chat.py` lines 757-762 and 251-261): `ChatLifecycle.Gateway.ChatCompletions`.
  Each such request leaves the controller a permit too many for good
  (`ChatLifecycle.GlobalSlotsAfterwards`, `LocalAdmission.SurplusAdmitsMore`).
- The queue limit of the local controllers bounds the queue only if it is zero or nothing may be
  in flight (`LocalAdmission.QueueLimitHolds`); it is exceeded between a release that wakes a
  waiter and that waiter's next step (`LocalAdmission.OvershootNeedsHandover`).
- The in-flight limit, `GATEWAY_MAX_INFLIGHT` in `docs/resilience.md` line 7, bounds the requests
  in flight, while every holder releases once, if and only if it is positive or nobody may queue:
  a limit of zero lets one request through (`LocalAdmission.InflightLimitHolds`). With the double
  releases of the chat handler it bounds them only if it is at most one and nobody may queue
  (`LocalAdmission.LimitUnderDoubleReleases`); with surplus releases at any time, only if nothing
  is let through at all (`LocalAdmission.InflightLimitUnderSurplus`). The controller's counter
  stays too low then (`LocalAdmission.CounterLimitUnderSurplus`).
- `docs/tenant-isolation.md` line 53 has `maxQueuedRequests` bound the waiters of a replica. In
  Redis mode it never does, as arrivals pass the gate before any of them takes a lease
  (`RedisAdmission.QueueLimitHolds`).
- A release script that raises leaves the in-flight counter up for good, and enough of them close
  the local gate: `RedisAdmission.LeakClosesLocalGate`.
- The usage-event backoff is capped at 30 s but never exceeds 16 s: `UsageQueue.BackoffStaysBelowCap`.
- A shutdown that drains the usage events to the end still loses the one in flight
  (`UsageQueue.ShutdownLosesInFlight`).
- A decision lookup can return another tenant's record (`DecisionStore.FoundIsOwn`,
  `DecisionStore.FallbackFindsOther`), and a shadow patch can change one
  (`DecisionStore.PatchHitsOther`).
- A failed request can raise a backend's health score (`Health.FailureCanRaiseScore`).
- A tenant refund that falls into the next day is taken from that day's tokens:
  `TenantWindow.LateRefundUndercounts`.

## Model

| member | source | states |
|---|---|---|
| BudgetLedger.SpendBound | app/gateway/budget_guard.py:544-561 | for every run of reserve, settle and purge with any positive clocks, all money ever committed is at most one budget per opened window plus the overrun of the settlements, and openings are at least a window apart |
| BudgetLedger.BooksBalance | app/gateway/budget_guard.py:687-719 | in every reachable state reserved is the sum of the live holds and within the budget, committed is the sum settled since the last roll, both together stay within budget plus the open window's overrun, live ids and tombstones are disjoint, each id settled once |
| BudgetLedger.IssuedExactly | app/gateway/budget_guard.py:706-716 | in every state of a run a reservation is admitted if and only if the spend settled in the window, nothing if it is over, plus the holds that are not due, plus the estimate, fits the budget |
| BudgetLedger.WindowIsYoung | app/gateway/budget_guard.py:557-561 | after a reservation, or a settlement that finds its id, the open window is younger than a window length, and it is new only if the old one had reached that age |
| BudgetLedger.EveryRunInv | app/gateway/budget_guard.py:544-561 | the invariant behind the two theorems above holds after every run |
| BudgetLedger.StepInv | app/gateway/budget_guard.py:687-719 | every single operation keeps that invariant |
| BudgetLedger.ReserveBooks | app/gateway/budget_guard.py:687-719 | a reservation keeps the books, admitted or denied, rolled or not |
| BudgetLedger.SettleBooks | app/gateway/budget_guard.py:799-810 | a settlement keeps them, for a live hold, a tombstone or an unknown id |
| BudgetLedger.ExpireBooks | app/gateway/budget_guard.py:544-555 | expiry keeps them |
| BudgetLedger.StepSpaced | app/gateway/budget_guard.py:557-561 | every operation keeps the openings of windows a window length apart |
| BudgetLedger.TurnBounded | app/gateway/budget_guard.py:557-561 | closing a window adds it to the closed ones within one more budget plus its overrun |
| BudgetLedger.SettledIsFinal | app/gateway/budget_guard.py:799-806 | after an id was settled, no later call with it has any effect, whatever happens in between |
| BudgetLedger.AllSettledReleasesAll | app/gateway/budget_guard.py:799-810 | if every admitted id is settled at some later point, nothing is live or reserved at the end |
| BudgetLedger.LiveIdsAreOpen | app/gateway/budget_guard.py:712-719 | an id is live only through a reservation that no settlement followed |
| BudgetLedger.OverrunIsErrorPlusLate | docs/budget-guard.md:102-104 | an open window exceeds its budget by at most the estimate error plus the late spend of its settlements |
| BudgetLedger.LateSettleBreaksDocumentedLimit | app/gateway/budget_guard.py:803-810 | a settlement, in the open window or opening a new one, raises that window beyond its estimate error if and only if it finds a positive tombstone and is positive |
| BudgetLedger.DocumentedLimitHoldsWithoutLate | docs/budget-guard.md:102-104 | in every run the documented limit holds for a window whose settlements all found their hold |
| BudgetLedger.CommittedIsEffective | app/gateway/budget_guard.py:803-810 | over every run everything committed is the actual spend of the settlements that found their id |
| BudgetLedger.ChargesAreCommittedOrForgone | app/gateway/budget_guard.py:544-561 | in any store the charges of all admitted ids are committed but for those whose settlement finds a forgotten hold, and the total falls short if and only if one of these is positive |
| BudgetLedger.EveryChargeIsCommitted | app/gateway/budget_guard.py:170-212 | in a store that keeps its tombstones the total committed is the sum of the charges of all admitted ids, however late they settle |
| BudgetLedger.PromptChargesAreCommitted | app/gateway/budget_guard.py:544-555 | on a clock that does not go back no charge is lost in any store if every settlement comes within the remembering time after its hold was due |
| BudgetLedger.StepInTime | app/gateway/budget_guard.py:544-555 | every operation keeps each unsettled id live, remembered long enough, or overdue by the remembering time |
| BudgetLedger.DocumentedLimitFails | docs/budget-guard.md:102-104 | a concrete run without any estimate error that ends at twice the budget |
| BudgetWindow.ClampsNeverAct | app/gateway/budget_guard.py:550 | on a sound window the clamps at zero change nothing |
| BudgetWindow.DueNeverExceedsReserved | app/gateway/budget_guard.py:544-551 | what expiry hands back is covered by reserved and leaves the sum of the holds that stay |
| BudgetWindow.BuryFirst | app/gateway/budget_guard.py:545-551 | expiring any due hold first does not change the result, so the loop's order does not matter |
| BudgetWindow.ReserveSound | app/gateway/budget_guard.py:687-719 | a reservation keeps reserved equal to the live sum |
| BudgetWindow.SettleSound | app/gateway/budget_guard.py:799-810 | a settlement keeps reserved equal to the live sum |
| BudgetWindow.AdmittedExactly | app/gateway/budget_guard.py:706-716 | the admission condition on the stored window |
| BudgetWindow.ReservedExactly | app/gateway/budget_guard.py:706-716 | every field a reservation leaves: window start, committed, reserved, each hold with its time |
| BudgetWindow.BuriedExactly | app/gateway/budget_guard.py:706-708 | the tombstones a reservation leaves, with amounts and how long they last |
| BudgetWindow.ExpiredExactly | app/gateway/budget_guard.py:544-555 | every field an expiry leaves |
| BudgetWindow.SettledExactly | app/gateway/budget_guard.py:799-810 | every field a settlement leaves, for a hold, a tombstone and an unknown id |
| BudgetMemory.MemoryWindow.ExpireMemory | app/gateway/budget_guard.py:544-555 | the loop over due holds, in any order, turns exactly them into tombstones and forgets stale tombstones |
| BudgetMemory.MemoryWindow.RollWindow | app/gateway/budget_guard.py:557-561 | opens a new window exactly when none is open or the open one is over, carrying reservations over |
| BudgetMemory.MemoryWindow.Reserve | app/gateway/budget_guard.py:700-719 | the body under the lock is the specified reservation and replies with the new sums |
| BudgetMemory.MemoryWindow.Settle | app/gateway/budget_guard.py:803-810 | the body under the lock is the specified settlement |
| BudgetMemory.InferenceBudgetGuard.ReserveMemory | app/gateway/budget_guard.py:687-719 | a reservation changes its own scope as specified and no other scope |
| BudgetMemory.InferenceBudgetGuard.SettleMemory | app/gateway/budget_guard.py:782-810 | a settlement, in one hour of window if the reservation names none, changes its own scope as specified and no other scope |
| BudgetMemory.InferenceBudgetGuard.PurgeExpired | app/gateway/budget_guard.py:812-824 | purge expires the scope and counts what was due |
| BudgetMemory.InferenceBudgetGuard.SnapshotMicros | app/gateway/budget_guard.py:826-839 | a snapshot reports committed and the sum of the holds that are still live |
| BudgetMemory.BudgetReservation.Settle | app/gateway/budget_guard.py:306-319 | the first call charges the actual spend or the estimate, any further one does nothing |
| BudgetMemory.BudgetReservation.Release | app/gateway/budget_guard.py:321-326 | the first call charges nothing, any further one does nothing |
| BudgetMemory.BudgetReservation.Abandon | app/gateway/budget_guard.py:328-333 | charges the estimate if executed, else nothing, and only if unsettled |
| BudgetStore.CorruptStoresAbort | app/gateway/budget_guard.py:73-110 | each script reports corruption exactly when a window field or an amount it reads is not a number, and then leaves all keys as they were |
| BudgetStore.CorruptExactly | app/gateway/budget_guard.py:68-110 | a store is corrupt exactly if a present window field, or the present amount of a reservation that is due or is settled, is not a number; absent ones count as zero |
| BudgetStore.BadArgumentsExactly | app/gateway/budget_guard.py:131-136 | which arguments the scripts refuse, before they look at the store |
| BudgetStore.RedisStore.ReadAmounts | app/gateway/budget_guard.py:89-98 | reads all due amounts or finds a corrupt one, before anything is written |
| BudgetStore.RedisStore.BuryAll | app/gateway/budget_guard.py:99-103 | rewrites the due amounts as tombstones and adds up what they release |
| BudgetStore.RedisStore.Expire | app/gateway/budget_guard.py:87-110 | expires exactly the due ids, or nothing at all if one is corrupt |
| BudgetStore.RedisStore.Reserve | app/gateway/budget_guard.py:119-168 | the reserve script step by step is its atomic specification |
| BudgetStore.RedisStore.Settle | app/gateway/budget_guard.py:170-212 | the settle script step by step is its atomic specification |
| BudgetStore.RedisStore.Purge | app/gateway/budget_guard.py:214-230 | the purge script step by step is its atomic specification |
| BudgetRefinement.ReserveRefines | app/gateway/budget_guard.py:119-168 | on keys that encode a window, the reserve script answers as the window model does and leaves keys that encode the new window |
| BudgetRefinement.SettleRefines | app/gateway/budget_guard.py:170-212 | the same for settle, with live, late and unknown told apart by the encoding |
| BudgetRefinement.PurgeRefines | app/gateway/budget_guard.py:214-230 | the same for purge |
| BudgetRefinement.ReserveReplyExactly | app/gateway/budget_guard.py:143-166 | the five numbers of a reservation's reply, in terms of committed spend and holds that are not due |
| BudgetRefinement.SettleReplyExactly | app/gateway/budget_guard.py:184-210 | the code, amount and committed sum of a settlement's reply |
| BudgetRefinement.PurgeReplyExactly | app/gateway/budget_guard.py:214-230 | the four numbers of a purge's reply |
| BudgetRefinement.RunRefines | app/gateway/budget_guard.py:67-230 | the same for every run from any related pair |
| BudgetRefinement.ScriptsRefineLedger | app/gateway/budget_guard.py:67-230 | from an empty store every run of the scripts gives the ledger's answers and window |
| BudgetRefinement.StoredReservedIsLiveSum | app/gateway/budget_guard.py:119-168 | the stored reserved field is always the sum of the live amounts and within the budget |
| BudgetRefinement.CallShadows | app/gateway/budget_guard.py:552-554 | on one call both stores answer alike, and still agree after it, exactly unless it settles a tombstone that only Redis remembers |
| BudgetRefinement.StoresAgreeUnlessForgotten | app/gateway/budget_guard.py:544-561 | over whole runs the two stores give the same answers if and only if no settlement needs a forgotten tombstone |
| BudgetRefinement.PromptStoresAgree | app/gateway/budget_guard.py:544-561 | in terms of times: they agree on a clock that does not go back if every settlement comes within the remembering time after its hold was due |
| BudgetRefinement.StoresCanDisagree | app/gateway/budget_guard.py:552-554 | a run in which the two stores answer differently |
| BudgetRefinement.ZeroBudgetsDiffer | app/gateway/budget_guard.py:134-136 | the reserve script answers as the in-process store if and only if the budget is positive |
| BudgetLifetime.MoneyBoundSurvives | app/gateway/budget_guard.py:112-116 | however often the Redis keys die, all money committed is at most one budget per opened window plus the overrun |
| BudgetLifetime.SpacingSurvives | app/gateway/budget_guard.py:145-149 | openings of windows stay a window apart exactly in runs in which none opens early after the keys died |
| BudgetLifetime.SpendBoundOverLifetimes | app/gateway/budget_guard.py:119-212 | on one clock both halves of the spend bound survive if settlements that open a window do so a window length before the keys' deadline |
| BudgetLifetime.LateOpeningCrowds | app/gateway/budget_guard.py:194-197 | a later one lets the next window open early, and an earlier one never does |
| BudgetLifetime.DeadlineExactly | app/gateway/budget_guard.py:112-116 | only reservations refresh the keys, to four times the longer of window and TTL, and their death leaves nothing |
| BudgetLifetime.OpeningsCanCrowd | app/gateway/budget_guard.py:194-197 | a run with windows of one second that open at 1, 4000 and 4001 milliseconds |
| BudgetLifetime.ScriptsRefineLives | app/gateway/budget_guard.py:67-230 | the scripts on keys that die refine the ledger that is wiped then |
| Common.ToNumberInvertsShow | app/gateway/budget_guard.py:90-103 | every amount a script writes reads back as the same integer and is no tombstone |
| Common.NumbersAreDecimal | app/gateway/budget_guard.py:68-71 | stored numbers are decimal, and text with anything else in it is no number |
| BudgetMoney.ChargesBracketCosts | app/gateway/budget_guard.py:243-250 | integer charges cover the exact costs and exceed them by less than one micro a request |
| BudgetMoney.AdmittedSumFitsExactBudget | app/gateway/budget_guard.py:243-250 | charges that fit the floored cap have exact costs that fit the exact cap |
| BudgetMoney.EstimateIsCharge | app/gateway/budget_policy.py:82-99 | for every price table and model the estimate is the exact cost in micros rounded up |
| BudgetMoney.PriceOrder | app/gateway/budget_policy.py:82-99 | the cost is priced by the model's own entry, else the wildcard, else the default |
| BudgetMoney.BudgetOfScope | app/gateway/budget_policy.py:68-80 | which name and which budget a tenant and key get |
| BudgetMoney.ScopeNamesInjective | app/gateway/budget_policy.py:68-80 | scope names determine tenant and fingerprint, and tenant scopes are no key scopes |
| BudgetMoney.SharedScope | app/gateway/budget_policy.py:68-80 | two requests share a budget exactly when tenant and the kind of budget agree and key fingerprints match |
| LeaseFleet.LeaseCap | app/gateway/admission.py:59-137 | for every interleaving of the scripts by replicas with any clocks, and any key expiry, leases never exceed the limit, lease and token ids agree, tokens of one counter lifetime increase |
| LeaseFleet.StepInv | app/gateway/admission.py:59-137 | every script keeps that invariant |
| LeaseFleet.AcquireSucceedsExactly | app/gateway/admission.py:59-86 | in every reachable state an acquisition at `now` succeeds exactly when fewer than the limit of leases expire later, and keeps exactly those |
| LeaseFleet.AcquiredExactly | app/gateway/admission.py:59-86 | the keys a granted or refused acquisition leaves, with expiry and token |
| LeaseFleet.ScriptsExactly | app/gateway/admission.py:90-137 | the keys a renewal, a release and a purge leave; only the holder's own token counts |
| LeaseFleet.LostStaysLost | app/gateway/admission.py:88-122 | once a granted id left the lease set, no later renew or release with it succeeds or changes anything |
| LeaseFleet.OwnLeaseOnly | app/gateway/admission.py:90-122 | renew and release touch their own id only, and only with its token |
| LeaseFleet.LaterGrantsFenceEarlier | app/gateway/admission.py:78-84 | of two grants in one lifetime of the fence key the later has the larger token |
| LeaseFleet.FleetStore.PurgeExpired | app/gateway/admission.py:64-70 | drops exactly the leases and tokens that are due |
| LeaseFleet.FleetStore.AcquireScript | app/gateway/admission.py:59-86 | the script is the specified acquisition, with its reply |
| LeaseFleet.FleetStore.RenewScript | app/gateway/admission.py:90-108 | the script is the specified renewal, with its reply |
| LeaseFleet.FleetStore.ReleaseScript | app/gateway/admission.py:112-122 | the script is the specified release, with its reply |
| LeaseFleet.FleetStore.PurgeScript | app/gateway/admission.py:126-137 | the script is the specified purge, with its counts |
| LeaseTiming.TimelyHolderKeepsLease | app/gateway/admission.py:502-532 | a holder that sleeps at most half the TTL and whose delays fit the other half keeps a lease that outlasts every script landing before its release |
| LeaseTiming.StepKeepsLease | app/gateway/admission.py:502-532 | each script of any replica in between leaves that lease in place |
| LeaseTiming.GrantStartsHolding | app/gateway/admission.py:59-86 | a granted acquisition meets the premises of the timing theorem |
| LeaseTiming.PurgeTakesOverdue | app/gateway/admission.py:126-137 | a purge spares a lease if and only if less than a TTL has passed since the last renewal's stamp |
| LeaseTiming.IntervalIsHalfTtl | app/gateway/admission.py:503 | the configured sleep is cut to at most half the TTL |
| RedisAdmission.CountersAndLeases | app/gateway/admission.py:412-477 | whatever other replicas do, the counters count this replica's tasks, at most the limit of them hold a lease, and a holder can renew exactly while its lease is in the set |
| RedisAdmission.GateExactly | app/gateway/admission.py:412-431 | in every reachable state the gate turns a task away if and only if the leases that expire later reach the limit and the queue its limit |
| RedisAdmission.PollExactly | app/gateway/admission.py:437-471 | one poll wins a lease if and only if fewer than the limit expire later; else the task waits on, or leaves where nobody may queue |
| RedisAdmission.ReleasesExactly | app/gateway/admission.py:547-569 | what each outcome of a release script leaves in Redis and in the replica |
| RedisAdmission.QueueLimitHolds | app/gateway/admission.py:412-431 | the queue limit bounds the waiters of a replica in every run if and only if the lease limit is zero; with any positive one any number can wait |
| RedisAdmission.StepInv | app/gateway/admission.py:412-569 | every step of the acquisition loop and of a release keeps counters and handles exact |
| RedisAdmission.LeftoverIsFailedReleases | app/gateway/admission.py:552-569 | when all tasks have ended the in-flight counter is the number of releases that raised |
| RedisAdmission.LeakClosesLocalGate | app/gateway/admission.py:487-489 | with nothing running, the local gate rejects exactly when queueing is off and at least the limit of releases have raised |
| RedisAdmission.GateCanClose | app/gateway/admission.py:552-569 | a run after which the gate is closed with no lease in the set and nothing running |
| LeaseComposition.PunctualReplicaRespectsLimit | app/gateway/admission.py:412-532 | if all holders of a replica renew in time, its leased tasks number at most the limit at every moment, whatever the other replicas do |
| LeaseComposition.PunctualHoldersFitLimit | app/gateway/admission.py:59-137 | at the end of every run of the fleet, the holders of all replicas that have renewed in time since their grants number at most the limit |
| LeaseComposition.StepCovered | app/gateway/admission.py:412-532 | every step keeps each leased task's lease ahead of its expiry |
| LeaseComposition.LapsedLeasesLetMoreRun | app/gateway/admission.py:59-86 | a run in which a lease that is not renewed lapses and two tasks run under a limit of one |
| RedisAdmission.RedisController.Gate | app/gateway/admission.py:412-431 | probes the fleet and takes a queue ticket unless fleet and queue are both full |
| RedisAdmission.RedisController.TryAcquire | app/gateway/admission.py:437-471 | one pass of the polling loop: a handle that owns its lease, or rejection, or another pass |
| RedisAdmission.RedisController.Finish | app/gateway/admission.py:472-477 | returns the ticket and records the lease |
| RedisAdmission.RedisController.ReleaseLease | app/gateway/admission.py:547-569 | runs the script and lowers the counter only if the script did not raise |
| LocalAdmission.PermitsConserved | app/gateway/admission.py:479-544 | under any interleaving, cancellation and number k of surplus releases, free plus owned permits are the maximum plus k, the queue counter is exact and the in-flight counter at most k too low |
| LocalAdmission.StepInv | app/gateway/resilience.py:91-125 | every step keeps this, a surplus release raising k; the queue clamp never acts, and the in-flight clamp not while k is zero |
| LocalAdmission.EndsAsItStarted | app/gateway/resilience.py:91-125 | when all tasks have ended, the pool holds one extra permit for each surplus release, and is as at the start if and only if there was none |
| LocalAdmission.SurplusAdmitsMore | app/gateway/resilience.py:121-125 | for every k, k surplus releases are followed by as many tasks in flight as permits plus k |
| LocalAdmission.DoublesAdmitMore | app/gateway/routers/chat.py:757-762 | the same when every surplus release follows a release at once, if the limit is above one or somebody may queue |
| LocalAdmission.InflightLimitHolds | app/gateway/resilience.py:88-95 | while every holder releases once, the limit bounds the requests in flight, which the counter then counts, if and only if it is positive or nobody may queue |
| LocalAdmission.LimitUnderDoubleReleases | app/gateway/resilience.py:91-125 | with double releases the limit bounds the requests in flight if and only if it is at most one and nobody may queue |
| LocalAdmission.InflightLimitUnderSurplus | app/gateway/resilience.py:91-125 | with surplus releases at any time it bounds them if and only if it is zero and nobody may queue |
| LocalAdmission.CounterLimitUnderSurplus | app/gateway/resilience.py:91-125 | it bounds the counter, which surplus releases leave too low, if and only if nobody may queue |
| LocalAdmission.NeverStuck | app/gateway/admission.py:491-500 | no wake-up is lost: while a task has not ended, a woken or cancelled task can run or a holder can release |
| LocalAdmission.RejectionMeansFull | app/gateway/admission.py:484-488 | a rejection means as many tasks in flight as permits and a full queue; without surplus releases the gate rejects exactly when no permit is free or being handed over and the queue is at its limit |
| LocalAdmission.ArrivesExactly | app/gateway/admission.py:482-499 | in every reachable state the gate's condition, and that an arrival is in flight at once exactly if a permit is free and nobody waits or was just woken |
| LocalAdmission.WakesInOrder | app/gateway/resilience.py:112-125 | permits go to the waiters in the order of their arrival, one on a release and all free ones when a task runs again |
| LocalAdmission.CancelsExactly | app/gateway/admission.py:491-499 | a cancellation moves no permit and no counter until the task runs |
| LocalAdmission.OvershootNeedsHandover | app/gateway/resilience.py:94-110 | a task queues beyond the limit only while a permit is being handed to a task that has not run yet |
| LocalAdmission.QueueLimitHolds | app/gateway/resilience.py:94-110 | the queue limit bounds the queue in every run if and only if it is zero or nothing may be in flight |
| LocalAdmission.QueueGrows | app/gateway/admission.py:484-489 | with both limits positive a run, by one release and arrivals before the woken task runs, has any number of tasks queued |
| LocalAdmission.Controller.Acquire | app/gateway/admission.py:482-499 | the gate, and in the same step the recording of a task that finds a free permit |
| LocalAdmission.Controller.WakeUpAll | app/gateway/admission.py:491-494 | the semaphore's loop hands free permits to the waiters in order |
| LocalAdmission.Controller.ResumeTask | app/gateway/admission.py:492-499 | a woken task is recorded, a cancelled one gives its permit on, and the queue counter falls |
| LocalAdmission.Controller.ReleasePermit | app/gateway/admission.py:536-540 | for any caller the permit goes on to the first waiter and the counter falls in one step |
| Circuit.StateRefinesHistory | app/gateway/resilience.py:156-200 | the breaker is closed exactly while its outcomes end in fewer failures than the threshold, then counts them; open has an opening time; half-open has between one and the allowed probes |
| Circuit.DecidesByHistory | app/gateway/resilience.py:156-200 | whether a call is let through, from the recorded outcomes and the earlier decisions alone; every failure while not closed starts the recovery period anew |
| Circuit.AdmissionRate | app/gateway/resilience.py:156-176 | from an opening on and without a success, every trace lets through at most the probe limit for each full recovery period |
| Circuit.RunPaced | app/gateway/resilience.py:156-200 | half-open episodes are at least a recovery period apart, and together they admit at most the probe limit times their number |
| Circuit.EpisodeAdmitsAtMostProbes | app/gateway/resilience.py:156-176 | each episode admits at most the probe limit, at every moment as many calls as probes are taken |
| Circuit.RateIsTight | app/gateway/resilience.py:156-200 | for every number of periods a trace reaches that rate |
| Circuit.CircuitBreaker.AllowCall | app/gateway/resilience.py:156-176 | decides and moves its backend as specified, and no other backend |
| Circuit.CircuitBreaker.RecordSuccess | app/gateway/resilience.py:178-183 | closes its backend, and touches no other |
| Circuit.CircuitBreaker.RecordFailure | app/gateway/resilience.py:185-200 | counts or reopens its backend as specified, and touches no other |
| RetryBudget.AtMostTwicePerWindow | app/gateway/resilience.py:229-238 | any calls that fit in less than one window, after any history, are granted at most twice the limit |
| RetryBudget.TwiceIsReached | app/gateway/resilience.py:229-238 | and twice the limit is reached |
| ChatLifecycle.Gateway.ChatCompletions | app/gateway/routers/chat.py:178-261 | for every fate of a request its reservation is settled once with the charge the outcome calls for, other scopes are untouched, the tenant permit is back, the global slot is back once, or twice exactly when a finished answer's response cannot be built, and the model is called exactly if nothing stopped the request before |
| ChatLifecycle.Gateway.Guarded | app/gateway/routers/chat.py:240-261 | an exception from the admitted part abandons the reservation and gives both permits back |
| ChatLifecycle.Gateway.Admitted | app/gateway/routers/chat.py:264-762 | says for every exit what is still owed and what was given back |
| ChatLifecycle.Gateway.CallModel | app/gateway/routers/chat.py:335-639 | the upstream call is begun exactly if quota, governance, routing and preparation let it, and every way out before the answer has settled the charge of its outcome or owes what abandoning will charge |
| ChatLifecycle.Gateway.HandleError | app/gateway/routers/chat.py:594-605 | the except branch refunds, charges, or leaves the charge to abandoning, as the outcome and the recording say |
| ChatLifecycle.Gateway.Respond | app/gateway/routers/chat.py:489-762 | from the answer to the response or the end of its body, the reservation sends or owes the right charge |
| ChatLifecycle.Gateway.Answer | app/gateway/routers/chat.py:641-762 | a plain answer is settled at its priced usage or owes the estimate, and releases before the response is built |
| ChatLifecycle.Gateway.FinalizeStream | app/gateway/routers/chat.py:489-564 | a streamed body always ends settled and released, even if bookkeeping raises |
| ChatLifecycle.Gateway.SettleStream | app/gateway/routers/chat.py:497-559 | a stream is charged its priced usage, or the estimate if that is unknown or fails |
| ChatLifecycle.Gateway.Abandon | app/gateway/routers/chat.py:254-256 | settles what is owed and does nothing to a settled reservation |
| ChatLifecycle.Gateway.GiveBack | app/gateway/routers/chat.py:257-260 | releases the lease at most once and the global slot each time |
| ChatLifecycle.Lease.Release | app/gateway/admission.py:195-204 | returns its permit on the first call only |
| ChatLifecycle.AllRequestsEndedNothingReserved | app/gateway/routers/chat.py:240-261 | when any number of interleaved requests on a scope have ended, whatever purges came between, nothing is reserved, no hold is live, and what was committed are the charges whose settlements found their id |
| ChatLifecycle.RequestsEnd | app/gateway/routers/chat.py:576-656 | the calls a request makes on the guard have the form that theorem needs, for every fate |
| ChatLifecycle.CallsMakeAfter | app/gateway/routers/chat.py:576-656 | those calls, on the ledger, leave the window that the handler's contract names |
| ChatLifecycle.ChargedExactly | app/gateway/routers/chat.py:576-656 | the charge for every combination of what can fail |
| ChatLifecycle.UncalledCommitsNothing | app/gateway/routers/chat.py:392-408 | a request whose model was not called leaves what its scope had committed, and no hold |
| ChatLifecycle.FailsAfterReleaseExactly | app/gateway/routers/chat.py:757-762 | when a slot is released twice |
| ChatLifecycle.AllChargesCommitted | app/gateway/routers/chat.py:240-261 | on a store that keeps its tombstones, when all interleaved requests have ended, the total committed is the sum of the charges of the admitted ones |
| ChatLifecycle.ChargesFallShortExactly | app/gateway/routers/chat.py:240-261 | on any store, when all interleaved requests have ended, the total falls short of their charges if and only if a positive charge met a forgotten hold |
| ChatLifecycle.PromptRequestsAllCommitted | app/gateway/routers/chat.py:240-261 | on any store all charges of ended requests are committed if their settlements come within that time |
| ChatLifecycle.GlobalSlotsAfterwards | app/gateway/routers/chat.py:225-261 | when all interleaved requests have ended, the global controller has one permit too many for each that failed after releasing its slot, and is as at the start if and only if none did |
| ChatLifecycle.RecordingTurnsRefundIntoCharge | app/gateway/routers/chat.py:426-452 | a stream refused twice is charged exactly if recording the last failure raises |
| ChatLifecycle.ChargedAsDocumented | docs/budget-guard.md:93-98 | a request is charged as documented if and only if a stated condition holds, for every fate: on the attempts of a failed call, and on what raises after an answered one |
| ChatLifecycle.BookkeepingComesTooLate | app/gateway/routers/chat.py:656-719 | a bookkeeping error leaves the priced usage charged where the documentation charges the estimate |
| UpstreamCall.PostCompletionWithFallback | app/gateway/services/completions.py:144-197 | the loop posts exactly to the allowed attempts that every earlier one passes on to, returns or raises what the deciding attempt says, lists all earlier ones as failed, and tells the breaker of every outcome |
| UpstreamCall.PostedExactly | app/gateway/services/completions.py:162-195 | which attempts are posted to, from breaker, retry budget and how the earlier posts ended |
| UpstreamCall.OutcomeExactly | app/gateway/services/completions.py:162-197 | what the call returns or raises, from the attempt that decides |
| UpstreamCall.StreamExactly | app/gateway/routers/chat.py:426-452 | the posts and the outcome of a streamed call |
| UpstreamCall.ChargeFollowsRule | app/gateway/routers/chat.py:594-605 | exactly which calls that may have run are refunded, and exactly which that cannot have run are charged |
| UpstreamCall.LostThenRefusedIsRefunded | app/gateway/services/completions.py:161-195 | a lost answer followed by a fallback that refuses is refunded although the model may have run |
| UpstreamCall.OpenCircuitsAreCharged | app/gateway/services/completions.py:163-168 | with every circuit open the request is charged although nothing was sent |
| UpstreamCall.SpentBudgetIsCharged | app/gateway/services/completions.py:169-172 | so is a request that the primary refused when the retry budget is spent |
| UpstreamCall.StreamFollowsRule | app/gateway/routers/chat.py:426-452 | a streamed call is charged by the rule unless its last post was not sent or recording the first failure raises |
| UpstreamCall.AllowancesWithoutOutcome | app/gateway/services/completions.py:163-193 | of the breaker's allowances at most one stays without an outcome, exactly when the retry budget or an unexpected exception stops the deciding attempt |
| UpstreamCall.OpenStream | app/gateway/routers/chat.py:426-452 | the streamed call with its one fallback is as specified |
| UsageQueue.NoEventIsLostOrDuplicated | app/gateway/usage_events.py:193-268 | in every run the queue stays within its bound, every accepted event is in exactly one place and none is posted more often than allowed |
| UsageQueue.StepInv | app/gateway/usage_events.py:193-268 | every step keeps that partition |
| UsageQueue.NothingVanishesWithClient | app/gateway/usage_events.py:235-238 | with a client, events disappear uncounted only when the worker is cancelled |
| UsageQueue.ShutdownLosesInFlight | app/gateway/usage_events.py:120-145 | after a shutdown every accepted event was delivered, dropped or lost, and what the shutdown loses is exactly the event in flight |
| UsageQueue.StepWorks | app/gateway/usage_events.py:235-268 | each delivery uses up an attempt |
| UsageQueue.RetriesTerminate | app/gateway/usage_events.py:235-268 | without new events the posts are bounded by the remaining attempts, and when these are used up the queue is empty |
| UsageQueue.WaitingEventIsTaken | app/gateway/usage_events.py:225-233 | an event whose time has come is not left behind by an idle worker |
| UsageQueue.TakesFirstDue | app/gateway/usage_events.py:225-233 | the worker takes the first pending event that is due |
| UsageQueue.FullQueueDropsOldest | app/gateway/usage_events.py:198-208 | a full queue drops its oldest event for a new one, and a closed one takes nothing |
| UsageQueue.DeliveredExactly | app/gateway/usage_events.py:235-268 | what a delivery leaves: delivered, dropped after the last attempt, or at the end of the queue with its delay |
| UsageQueue.BackoffStaysBelowCap | app/gateway/usage_events.py:260 | the delay doubles six times and never passes sixteen seconds |
| UsageQueue.Emitter.EmitEvent | app/gateway/usage_events.py:193-209 | queues the event, dropping the oldest when full, as specified |
| UsageQueue.Emitter.NextReady | app/gateway/usage_events.py:225-233 | takes the first ready event, as specified |
| UsageQueue.Emitter.DeliverItem | app/gateway/usage_events.py:235-268 | posts once and then delivers, drops or requeues, as specified |
| UsageQueue.Emitter.ClearOnTimeout | app/gateway/usage_events.py:127-133 | the timeout drops and counts what is still pending |
| TenantWindow.WindowCountsRecentRequests | app/gateway/tenant.py:176-256 | over any number of days, with a clock that does not go back, the stamps stay sorted and number the unrefunded requests of the last sixty seconds |
| TenantWindow.MinuteIsCounted | app/gateway/tenant.py:176-256 | the window is sixty seconds long |
| TenantWindow.StepOwned | app/gateway/tenant.py:202-276 | every operation keeps a one-to-one match of stamps and recent requests |
| TenantWindow.RefundOwned | app/gateway/tenant.py:248-254 | removing an equal stamp of another request keeps the match |
| TenantWindow.TokensAreSumOfCharges | app/gateway/tenant.py:202-276 | in every run over any number of days, with each reservation closed at most once and on its day, the token counter is the sum of what the day's reservations were reserved for or reconciled to |
| TenantWindow.ClosedExactly | app/gateway/tenant.py:248-276 | the tokens and members a refund and a reconciliation leave |
| TenantWindow.LateRefundUndercounts | app/gateway/tenant.py:248-255 | a refund of an amount the day does not contain keeps the count right if and only if the refund or the count is zero |
| TenantWindow.LateReconcileMiscounts | app/gateway/tenant.py:258-276 | a reconciliation of a reservation the day does not contain keeps the count right if and only if it changes nothing, or lowers a count of zero |
| TenantWindow.MidnightMiscounts | app/gateway/tenant.py:202-276 | runs over midnight whose refund and reconciliation put the count wrong |
| TenantWindow.TenantUsage.PruneWindow | app/gateway/tenant.py:176-179 | the loop drops exactly the leading stamps before the cutoff |
| TenantWindow.TenantUsage.Access | app/gateway/tenant.py:202-211 | prunes and starts a new day, as specified |
| TenantWindow.TenantUsage.ReserveRequest | app/gateway/tenant.py:213-243 | adds stamp and tokens and reports the new counts |
| TenantWindow.TenantUsage.RefundReservation | app/gateway/tenant.py:248-256 | removes one equal stamp and the reserved tokens |
| TenantWindow.TenantUsage.RemoveStamp | app/gateway/tenant.py:252-254 | removes the first equal stamp, if any |
| TenantWindow.Prune | app/gateway/tenant.py:176-179 | what is kept is a suffix, all dropped stamps are too old and the first kept one is not |
| SseParser.ParseSseJsonRpc | app/gateway/mcp_transport.py:142-173 | returns the last event of the stream that decodes to an object, and fails exactly if there is none |
| SseParser.LastMessageIsLast | app/gateway/mcp_transport.py:150-164 | the running answer is the value of the last event that has one |
| SseParser.PrintedStreamReadsBack | app/gateway/mcp_transport.py:142-173 | of a printed stream of any payloads the reader returns the last that, as received, is an object |
| SseParser.PayloadSurvives | app/gateway/mcp_transport.py:149-152 | a payload comes through unchanged if and only if it has no blanks around it and none at the start of a line |
| SseParser.UnterminatedEventCounts | app/gateway/mcp_transport.py:162-170 | text whose final blank line was stripped means the same |
| SseParser.SplitLinesAppend | app/gateway/mcp_transport.py:146-147 | splitting into lines distributes over a line feed after a non-empty last line |
| SseParser.BreaksEndLines | app/gateway/mcp_transport.py:146-147 | every line break ends a line, and a carriage return with a line feed is one |
| SseParser.LinesExactly | app/gateway/mcp_transport.py:148-153 | what a blank line, a data line and any other line add |
| SseParser.PayloadExactly | app/gateway/mcp_transport.py:153-161 | which payloads stand for nothing |
| SseParser.BlanksExactly | app/gateway/mcp_transport.py:149-152 | the characters that are stripped |
| DecisionStore.ReadableUntilMaxNewer | app/gateway/decisions.py:161-190 | a decision under a new key answers lookups unchanged exactly until the maximum of newer keys have been inserted, and then the lookup falls through to the plain identifier |
| DecisionStore.StoredAreNewest | app/gateway/decisions.py:161-170 | after every run the stored keys are the newest of all keys inserted, in order of first insertion |
| DecisionStore.PutExactly | app/gateway/decisions.py:156-170 | a put stores the stamped record under its key, in place if the key was stored |
| DecisionStore.PatchIsSeen | app/gateway/decisions.py:192-209 | a patch shows in the shadow fields of the record that lookups for any tenant find, and nowhere else |
| DecisionStore.PatchHitsOther | app/gateway/decisions.py:192-209 | a patch for a tenant's stored record changes another tenant's instead if and only if an older record carries the same request identifier |
| DecisionStore.PatchCanHitOther | app/gateway/decisions.py:192-209 | two tenants record one request identifier, and the patch for the second changes the first |
| DecisionStore.PatchWithoutOwn | app/gateway/decisions.py:192-209 | for a request of which the tenant has no record it changes another tenant's if and only if there is one |
| DecisionStore.EveryRunBounded | app/gateway/decisions.py:161-209 | in every reachable state the size is bounded and every record is under its own key |
| DecisionStore.UntouchedRecordStays | app/gateway/decisions.py:161-209 | no put or patch of another request changes a record |
| DecisionStore.KeysAreUnambiguous | app/gateway/decisions.py:156-159 | a storage key belongs to one tenant and request if and only if no other colon can split it |
| DecisionStore.FoundIsOwn | app/gateway/decisions.py:172-190 | scoped lookups in all stores find the own record or none if and only if no other colon can split the key |
| DecisionStore.LookupErrsExactly | app/gateway/decisions.py:185-190 | in one store a lookup errs exactly when its key is another request's, or is free while the plain identifier is a key |
| DecisionStore.FallbackFindsOther | app/gateway/decisions.py:189-190 | the plain fallback returns another tenant's record to whoever asks for its key |
| DecisionStore.InMemoryDecisionStore.PutRecord | app/gateway/decisions.py:161-170 | inserts or replaces and evicts from the front, as specified |
| DecisionStore.InMemoryDecisionStore.Get | app/gateway/decisions.py:172-190 | scoped, any-tenant and plain lookups, as specified |
| DecisionStore.InMemoryDecisionStore.ScanFor | app/gateway/decisions.py:196-200 | finds the oldest key with a record of the request |
| DecisionStore.InMemoryDecisionStore.PatchRecord | app/gateway/decisions.py:192-209 | changes the shadow fields of that record and nothing else |
| Health.AverageIsWeightedSum | app/gateway/stores/health.py:52-58 | the moving average is the decaying weighted sum over all outcomes |
| Health.CountersCount | app/gateway/stores/health.py:52-58 | the counters count requests, failures and fallbacks |
| Health.FailuresAreTrailing | app/gateway/stores/health.py:59 | the failure streak is the run of failures that the outcomes end in |
| Health.ScoreInRange | app/gateway/stores/health.py:30-42 | after every run the score is between 0 and 100, the clamp at zero never acts, and three failures in a row keep it at 20 or below |
| Health.ScoreExactly | app/gateway/stores/health.py:30-42 | the score in terms of availability, latency, error and fallback rates and the failure streak |
| Health.RoundsTiesToEven | app/gateway/stores/health.py:39 | how the score is rounded |
| Health.SuccessNeverLowersScore | app/gateway/stores/health.py:30-60 | a success without fallback never lowers the score |
| Health.FailureNeverRaisesScore | app/gateway/stores/health.py:30-60 | a failure with fallback never raises it |
| Health.FailureRaisesExactly | app/gateway/stores/health.py:30-60 | the unrounded score rises on a failure if and only if it did not fall back and thins out the fallbacks by more than it adds to the error rate |
| Health.FailureRaisesScoreOnlyThen | app/gateway/stores/health.py:30-60 | the rounded and capped score rises on a failure only then |
| Health.FailureCanRaiseScore | app/gateway/stores/health.py:30-60 | a run in which one more failure takes a backend from 8 to 9 |
| Routing.SelectRouteTarget | app/gateway/services/routing.py:11-21 | selects the target whose share of the buckets contains the request's bucket, and always selects one when weights total 100 |
| Routing.ModelOwnsItsWeight | app/gateway/services/routing.py:16-20 | of all buckets a model is chosen for exactly as many as its targets weigh |
| Routing.EarlierBucketsStay | app/gateway/services/routing.py:16-20 | a target added at the end moves no bucket of the others |

## Left out

- HTTP, request routing, tracing, metrics, logging, environment parsing, identity, governance payloads, evidence and signing: no state of their own to reason about.
- Hashes, UUIDs and the JSON decoder: parameters. The fingerprint of a key is any function to names of sixteen characters.
- Key lifetimes of the shared budget store: `BudgetRefinement` is about live keys and `BudgetLifetime` about their death, with one clock for Redis and the gateways; how charges are lost with the keys is not counted. Lua numbers are integers here, so doubles beyond 2^53 and non-decimal spellings of numbers are not covered.
- Redis outages in the budget guard: a failed script is a denial without effect, as in the guard's own error path.
- Hierarchical caps: the code charges a key scope or a tenant scope, never both, and the model claims nothing about their sum.
- LeaseTiming.TimelyHolderKeepsLease: the renewal loop is modelled by the trace of scripts it sends, not as a method with awaits; the sleep starts after a reply, so the bound also counts the reply's delay.
- LocalAdmission.NeverStuck: no bound on how long a task waits; the event loop runs every task that can run. Waiters are served in order of arrival, as the semaphore of Python 3.12 and later does.
- RedisAdmission.CountersAndLeases: cancellation while a task waits for the controller's lock, and the degraded and fail-open leases handed out during an outage.
- ChatLifecycle.Gateway.ChatCompletions: task cancellation and streams whose body never starts, which leave the hold to its TTL. The handler runs without interleaving against the in-process guard; interleaving is covered by `ChatLifecycle.AllRequestsEndedNothingReserved`.
- UpstreamCall.ChargeFollowsRule: an exception that is no HTTP error counts as a call that may have run. The breaker's and the retry budget's answers are inputs here; their own behaviour is in `Circuit` and `RetryBudget`.
- Circuit.AdmissionRate: says nothing about leaving the half-open state, since a caller may take a probe and record no outcome.
- TenantWindow.TokensAreSumOfCharges: spend in USD follows the same steps on floats; the map from teams to counters and the Redis store, which differs at the window's edge, are not modelled.
- SseParser.PrintedStreamReadsBack: unlike section 9.2.6 of the WHATWG HTML standard the code flushes an unterminated last event and strips all leading blanks, so what is received of a payload may differ from it; `SseParser.PayloadSurvives` says when.
- DecisionStore.InMemoryDecisionStore.PutRecord: the record's other fields are one opaque string, and the Redis store is not modelled.
- Health.ScoreInRange: on exact reals and for non-negative latencies; the Redis health store, a plain read-modify-write, is not modelled.
- Cost-aware and health-aware backend selection, shadow traffic, canary analysis: easy members.
- Rounding of settlement prices to eight decimals before the ceiling: charges start from the USD value they are given.
