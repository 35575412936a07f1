# A verified model of the audit gateway's scheduler, ledger, admission and evaluation

The service in `internal/audit` routes moderation requests to model channels of several providers, charges
their cost against client budgets, guards its own entrance, answers repeated requests from a cache, and runs
budgeted evaluations. This project models the parts of it that hold shared state or exact arithmetic, in the
form the Go code has, and proves what they guarantee over every interleaving of requests.

## How it is built

Every mutex-protected object is a class whose methods change its fields as the Go methods do. Each method is
proved equal to one step of a specification on values (`View() == Step(old(View()), ...)`), and the theorems
about whole runs are lemmas over arbitrary sequences of those steps. Each SQL transaction is one atomic step
on a table of rows.

| files | part of the service |
|---|---|
| `Channel`, `Routing`, `Router`, `RouterRuns`, `RouterChoice`, `RouterBreaker`, `RouterShares`, `RouterHealth`, `RouterResets` | the channel scheduler: sliding-window RPM, slots, cooldown and half-open probe, weighted choice |
| `RouteFailover`, `AttemptLoop`, `AttemptReasons`, `AttemptChances` | the failover planner and the attempt loop of one request: what it does, why it ends, and which chances it misses |
| `RouterRequests` | many requests in their loops on one channel table |
| `Usage`, `Pricing`, `Decimals`, `Money`, `MoneyTexts` | usage reports, price cards, and amounts in pico-CNY as text |
| `Ledger`, `LedgerRuns`, `LedgerCharges` | reservations, settlements, reconciliations and the cleanup sweep under client budgets |
| `Ingress`, `IngressRuns`, `IngressVerdicts`, `Admission` | token buckets per address and for everyone, and the request body budget |
| `KeyedGate`, `CacheGate`, `CacheRoute` | the per-key gate and the lookup of cached verdicts |
| `EvaluationPlan`, `EvaluationBudget`, `EvaluationEstimates` | pacing, timeouts and estimates of evaluation runs |
| `EvaluationSteps`, `Evaluation` | the executor of evaluation runs, as a function of what its trials meet and in place |
| `EvaluationRuns`, `EvaluationLimits`, `EvaluationWaiting`, `EvaluationTrials` | what every run of the executor keeps: its books, its pace and budget, its waiting, and how attempts make its trials |
| `Base`, `Counting`, `Loops`, `Sorting`, `WeightedDraw` | shared vocabulary |

Time is an integer number of nanoseconds, with 0 for Go's zero time. Random draws, database answers and
upstream outcomes are parameters, so every statement holds for all of them. Go's truncating division,
int64 limits and zero-time conventions are written out where they matter.

## Main results

* **Rate and slot limits.** In every interleaving of acquisitions, releases in any order, refunds, resets and
  edits, of the limits themselves too, no minute holds more sent calls of a channel than the largest RPM in
  force, and its in-flight count is the number of tickets out, at most the most slots it had. The trimmed list
  plus the pending reservations is always the exact count over the full history.
* **Requests on the table.** Whatever requests run together, none leaves the protocol of the attempt loop, and a
  channel's in-flight and pending counts are the number of requests that hold it: none when all are idle.
* **Circuit breaker.** In every run, resets, edits and recurring signatures included, the probe mark is set
  exactly while one probe of the current connection is out if and only if no step starts a connection that has
  a probe out; and the health is that of the current connection's own attempts, whatever completes next, if and
  only if no step starts a connection whose signature a ticket still out carries. Both conditions can be read
  off the tickets out before the step. A run of the engine with a reset fails them and has two probes out.
  What the breaker holds is the history: in every run the failures in a row, the cooldown and the error shown are
  those of the sent attempts with the current signature, a channel whose failures reach the threshold is not leased
  among others within the cooldown, and it can be called exactly when tries, revision, cooldown, probe, tickets and
  the calls of the last minute allow it.
* **Fair draw.** In every reachable state each channel of a tier is leased by exactly policy weight times remaining
  allowance of the possible draws, the allowance being RPM less the calls of the last minute and the tickets out.
* **Call deadlines.** A call is left unlimited in exactly the cases the planner allows, and otherwise ends at half of
  the time left or at its level's deadline.
* **Attempt loop.** It terminates, uses no channel twice, gives back every channel it took once, settles every
  reservation once, and sends no more calls than the limit. An iteration tries a channel if and only if an
  untried one can be called on a level the request has not given up, every end is explained by the channels, the
  rechecks and the call it met, and what the request has recorded by then is the story of its iterations.
* **Missed chances.** A request can end while calls are left and an untried channel could be called, because a
  level is given up for good. For every list of candidates this never happens, whatever the request meets, if and
  only if it has a single call or no two channels share a level that has a lower one behind it.
* **Budgets.** A reported usage is covered by its reservation on every tariff and across every tariff boundary if
  and only if it stays within its allowance. From that, the daily and monthly exposure of a client stays within
  its limits in every reachable state; a reconciliation, upwards too, keeps them exactly when its amount fits.
* **Charges.** Every amount in the books is the bill of a usage settled for that call, at the tariff of its start and
  end, nothing for a call cached or not sent, or an administrator's; an estimate is never below what the same counts
  could have cost.
* **Ingress.** Recycling idle buckets changes no decision compared with a guard that keeps every bucket, and
  at most `rpm + rpm * d / 60` requests are admitted in any `d` seconds, per address and in all. That bound is exact:
  a request is refused for its rate if and only if admitting it would break it. Room is refused only while nothing in
  the table is idle or a sweep is not due, and a body is admitted if and only if the worst case fits the memory.
* **Gate and cache.** One holder per key across deletion and re-creation of its entry; unless the
  database fails, a cached verdict is returned exactly when one is active, from the best priority that has one.
* **Evaluation.** When every trial is made of a fair attempt loop, the run never spends more than its budget and
  its calls on a channel keep their interval, hence the channel's RPM. A trial's estimate is the most its calls can
  be charged for, over every choice of channels. The run's waiting fits the time it is given
  however it goes. A completed run has settled every row, paid every trial and logged every call once; one that
  ends early was halted by a trial that ran, after failed ones only, and that gave cause for it.

## Where the code departs from its documentation

The README of the repository (line 299) promises that a level's call and time budget does not bind while no lower
level can be called, and a comment in `route_failover.go` (line 28) that the last available tier is not sacrificed
for a backup that cannot be called. Both hold at the moment a level is given up, but `skipped` is never cleared: when
the backup then turns out to be stopped, the level stays shut though its channels are the only ones left
(`AttemptChances.BackupGone`, `AttemptChances.SpareIsMissed`). The model follows the code.

## Model

| member | source | states |
|---|---|---|
| WeightedDraw.Choose | internal/audit/router.go:258-266 | the subtract-until-negative loop returns the member whose prefix-sum interval contains the draw, for every draw below the total |
| WeightedDraw.OwnerUnique | internal/audit/router.go:259-266 | the intervals do not overlap, so the draw decides the member |
| WeightedDraw.DrawShare | internal/audit/router.go:252-266 | each member is chosen by exactly as many draws as its weight |
| Channel.ChannelState.TrimWindow | internal/audit/channel_rpm.go:8-17 | drops exactly the calls a minute old or older in place and returns the calls left plus the pending reservations |
| Channel.ChannelState.AdoptConnection | internal/audit/router.go:208-216 | a changed signature brings its revision and a fresh health; quota and slots stay |
| Channel.ChannelState.ResetConnection | internal/audit/router.go:137-148 | a reset blanks signature and health and leaves quota, slots and counters |
| Channel.ChannelState.ReleaseSlot | internal/audit/router.go:277-340 | a release gives slot and reservation back, files a sent call in time order, and touches health only under its own signature |
| Router.InspectState | internal/audit/router.go:205-228 | adopting, cooldown and slot checks and the RPM check agree with the specified inspection on state and verdict |
| Router.Engine.AcquireRoute | internal/audit/router.go:185-342 | the whole acquisition on the shared table equals the specified one: scan, tier, weighted draw, slot and reservation |
| Router.Engine.ReleaseRoute | internal/audit/router.go:277-340 | only the ticket's channel changes, by the specified release |
| Router.Engine.ResetChannel | internal/audit/router.go:137-148 | only the named channel is reset, and only if it is known |
| Router.Engine.WindowReport | internal/audit/router.go:149-154 | reading the health trims the window and changes nothing else |
| Router.TierWeights | internal/audit/router.go:246-257 | weights are weight times remaining allowance, an unlimited channel counting as the tier's largest allowance |
| Router.ChosenInProportion | internal/audit/router.go:246-266 | each member of a tier is chosen by exactly policy weight times remaining allowance of the draws, an unlimited one having the largest allowance of the tier |
| RouterRuns.StepIsMove | internal/audit/router.go:185-342 | seen from one channel, every step of the engine is one of six moves, whatever the other channels do |
| RouterRuns.QuotaAlwaysKept | internal/audit/router.go:271-291 | in every run the pending reservations and slots equal the tickets out and the list agrees with the history on every window still to be asked for |
| RouterRuns.RpmUsedIsExact | internal/audit/channel_rpm.go:8-17 | in every reachable state the used RPM is the sent calls of the last minute in the full history plus the outstanding tickets |
| RouterRuns.RateLimitHolds | internal/audit/router.go:220-227 | no minute of any run holds more sent calls than the largest RPM in force, releases in any order, refunds, resets and edits of slots and of the RPM itself included |
| RouterRuns.SlotLimitHolds | internal/audit/router.go:217-219 | in-flight attempts equal the tickets out and never exceed the most slots the channel had, whatever is edited |
| RouterChoice.AcquisitionDecides | internal/audit/router.go:185-250 | a channel is leased exactly when a slot is free and an untried channel can be called on a level not given up, and it is on the best such level; otherwise the answer tells apart no slot, an untried channel held back by its RPM, and nothing to call |
| RouterShares.LeasedInProportion | internal/audit/router.go:220-266 | in every reachable state each channel of the tier is leased by exactly weight times allowance of the possible draws, where the allowance is the RPM less the calls of the last minute and the tickets out, and for an unlimited channel the largest of the others, at least one |
| RouterShares.TierIsLevel | internal/audit/router.go:239-257 | the tier drawn in is all that can be called on one level, without a planner the most urgent one |
| RouterShares.LeaseTerms | internal/audit/router.go:267-276 | every lease carries the candidate's signature, the time, the policy's failure threshold (3 by default) and cooldown (30 minutes by default), is a probe exactly when a failure that put the connection out of use has not been followed by a success, and limits its call as the planner said |
| RouterBreaker.HealthIsHistory | internal/audit/router.go:273-340 | in every run a channel's health is what the sent attempts with its signature amount to since its connection was started: failures in a row, how long it is kept out of use, last success and failure, the error shown |
| RouterBreaker.CountersAreHistory | internal/audit/router.go:277-291 | the calls and failures of a channel are all its sent attempts and those that did not succeed, across edits and resets |
| RouterBreaker.CallableExactly | internal/audit/router.go:199-228 | in every reachable state a channel can be called exactly when it is untried, the request knows its newest revision, it is the only one or neither cooling down nor probed, fewer tickets than slots are out, and calls of the last minute and tickets leave room in its RPM |
| RouterBreaker.BreakerHolds | internal/audit/router.go:322-339 | once own failures in a row reach the threshold, or a probe failed, the channel is not leased among several until the policy's cooldown is over, unless a success of its own or another connection comes first |
| RouterBreaker.BelowThreshold | internal/audit/router.go:322-339 | below the threshold and off a probe a failure keeps the channel out of use only for as long as the upstream asked |
| RouterRequests.TicketsMatchRequests | internal/audit/router.go:666-775 | whatever requests run together, no trace leaves the protocol, and tickets out and requests that hold a channel are one to one |
| RouterRequests.InFlightIsHolders | internal/audit/router.go:271-291 | in every joint run a channel's in-flight and pending counts are the number of requests that hold it |
| RouterRequests.NothingLeftBehind | internal/audit/router.go:643-797 | when every request stands where its loop leaves it, no channel has a slot or a reservation out |
| RouterHealth.MarkStaysRight | internal/audit/router.go:205-298 | given the probe mark is set exactly while one probe of the current connection is out, it is so after any step if and only if the step does not start a connection that has a probe out |
| RouterHealth.MarkRightThroughout | internal/audit/router.go:205-298 | over any run the mark is right in every state if and only if no step starts a connection that has a probe out |
| RouterHealth.OneProbeAtATime | internal/audit/router.go:273-298 | the mark is always right in runs that start no connection whose signature a ticket still out carries |
| RouterHealth.HealthStaysOwn | internal/audit/router.go:292-339 | health stays what the current connection's own attempts amount to, unless the step is a completion from an earlier connection of the same signature that changes it |
| RouterHealth.OwnThroughout | internal/audit/router.go:292-339 | over any run health is the connection's own in every state if and only if no such completion happens |
| RouterHealth.StrangersWouldIntrude | internal/audit/router.go:292-339 | in a reachable state health stays the connection's own whatever completes next if and only if every ticket out with its signature was taken with it |
| RouterHealth.HealthIsOwnReplay | internal/audit/router.go:205-339 | over any run health is always the connection's own, and safe from every completion, if and only if no step starts a connection whose signature a ticket still out carries |
| RouterHealth.NumberedRunsReadoptNothing | internal/audit/router.go:205-216 | a run without resets in which revisions number the signatures meets that condition at every step |
| RouterHealth.CooldownNeverShortened | internal/audit/router.go:302-339 | cooldown moves earlier only by a success of the current connection, a new signature or a reset |
| RouterResets.ResetAllowsTwoProbes | internal/audit/router.go:137-148 | for every connection there is a run of the engine with one reset after which two probes of the connection are out, and handing in the older one clears the mark while the younger is out |
| RouteFailover.RouteProgress.SelectTierInPlace | internal/audit/route_failover.go:29-85 | the loop over skipped priorities terminates and equals the specified selection, writing skips and deadlines in place |
| RouteFailover.TierSelection | internal/audit/route_failover.go:29-85 | a tier is returned whenever an eligible priority was unskipped, it is the whole best level left, and every priority skipped had used up its budget while a lower one was eligible |
| RouteFailover.BudgetRespected | internal/audit/route_failover.go:55-61 | a tier with an exhausted budget is never picked while a lower tier is eligible |
| RouteFailover.DeadlineWrittenOnce | internal/audit/route_failover.go:71-78 | a tier's deadline is written at most once, only for the tier picked, and within its time budget |
| RouteFailover.HalfTimeKept | internal/audit/route_failover.go:65-83 | a call deadline leaves at least half of the remaining time and respects the tier's deadline |
| RouteFailover.LevelBudget | internal/audit/route_failover.go:55-61 | a level is given up only for a lower one and only with its calls (two by default) or its time used up, or with one call left after it had one; the level chosen in front of a lower one is none of these |
| RouteFailover.CallDeadlineExactly | internal/audit/route_failover.go:65-83 | a call is unlimited exactly when it is the request's last, or there is no lower level and it has the level's only channel or the request no deadline; otherwise it ends at half of the time left or its level's deadline, which is fixed once as the time budget (four seconds by default) or that half, whichever is first |
| AttemptLoop.ExecuteRoute | internal/audit/router.go:643-797 | the loop terminates with the result, attempts and planner state the specified loop has for the same answers; on every exit the trace is balanced, no channel was used twice, at most limit attempts were sent or can cost, totals are the sums over attempts |
| AttemptReasons.RoundDecides | internal/audit/router.go:655-796 | an iteration tries the best open channel exactly when it is not cancelled, a slot is free and an untried channel can be called on a level not given up; it goes on exactly when that channel also turned it away or failed in one of the seven ways another may not; it ends with an error exactly when that is the one called for; and the attempt, its counts and the error held are those of the call |
| AttemptReasons.EndIsExplained | internal/audit/router.go:655-796 | in each iteration before the last calls were left and an untried channel could be called on a level not given up; where the request ends its calls are spent, or that is no longer so, or the channel it tried was fatal, and it ends with just that error or with the verdict |
| AttemptReasons.RequestTells | internal/audit/router.go:643-797 | after its n iterations a request has recorded the calls those made, in order and with their outcomes, counted the sent ones in all and by level, and holds the last error met; it ends as that allows |
| AttemptChances.MissedExactly | internal/audit/route_failover.go:29-61 | with calls left, no cancellation, a free slot and an untried channel that could be called, an iteration tries none exactly when every such channel is on a level given up |
| AttemptChances.SpareIsMissed | internal/audit/route_failover.go:55-61 | with two calls and a spare channel above a lower level, there is a course of events in which the request ends without a call while the spare could be called |
| AttemptChances.BackupGone | internal/audit/route_failover.go:55-61 | under the default settings, after two calls on an urgent level and a stopped backup, the planner has no tier for the third urgent channel |
| AttemptChances.TriesWhateverIsLeft | internal/audit/route_failover.go:26-85 | for every list of candidates and any deadline: no request misses a chance, whatever it meets, if and only if it has at most one call or no two channels share a level with a lower one behind it |
| AttemptLoop.RoundUsesChannel | internal/audit/router.go:659-666 | an iteration that goes on has used up one candidate more |
| AttemptLoop.ProtocolBalances | internal/audit/router.go:666-775 | a trace the protocol accepts takes each channel at most once, returns what it took and settles what it reserved |
| AttemptLoop.AttemptLog.Append | internal/audit/router.go:766-771 | token totals stay the sums over the attempts |
| AttemptLoop.AttemptLog.Iterate | internal/audit/router.go:655-795 | one iteration equals the specified one, keeps the record consistent and uses up one channel more unless it ends the request |
| UsageReports.ChatAcceptance | internal/audit/pricing.go:171-215 | a chat report is trusted exactly when its counts are present, not negative and add up, with the cache split if given |
| UsageReports.ChatReading | internal/audit/pricing.go:193-213 | a trusted chat report keeps its counts, keeps a cache split exactly when hits and misses make the prompt, and takes the reasoning tokens detailed, or else stated, that fit the completion |
| UsageReports.GrokAcceptance | internal/audit/provider.go:572-598 | a Grok report is trusted exactly when its total is met with or without the reasoning tokens, and then adds up |
| UsageReports.GrokReading | internal/audit/provider.go:572-598 | of a trusted Grok report everything beyond the prompt is completion, the cached tokens are hits and the rest of the prompt misses |
| UsageReports.TypeSafeAcceptance | internal/audit/typesafe.go:102-112 | a TypeSafe report is trusted exactly when neither count is negative and the sum fits in an int |
| UsageReports.TypeSafeReading | internal/audit/typesafe.go:102-112 | a trusted TypeSafe report has no hits, and its whole prompt as misses |
| Pricing.SafeCost | internal/audit/pricing.go:122-134 | succeeds exactly when nothing is negative and the true sum fits in int64, with that sum, and never forms a larger number |
| Pricing.CalculateWithinReservation | internal/audit/pricing.go:135-169 | within the allowance the charge exists and is at most the reservation, for every tariff, period and boundary crossing |
| Pricing.CoveredIffWithinAllowance | internal/audit/pricing.go:135-169 | a reported usage that adds up is covered by its reservation under every valid tariff and every pair of periods if and only if both its counts stay within the allowance |
| Pricing.ChargedItsBill | internal/audit/pricing.go:143-169 | a reported usage is charged its bill, every token at the dearer of its rates at start and end and an unsplit prompt at the dearer input rate, if that fits int64, and it is measured exactly when it was split and stayed in one period |
| Pricing.SplitUsageInOnePeriod | internal/audit/pricing.go:148-167 | within one period the charge is hits at the hit rate, misses at the miss rate and completion at the output rate of that period |
| Pricing.EstimateIsDearest | internal/audit/pricing.go:151-165 | an estimate is never below what the same counts, split in any way, cost in either period |
| Pricing.CacheSaves | internal/audit/pricing.go:149-165 | every token more in the cache lowers the bill by the difference of the two input rates |
| Money.ParseAmount | internal/audit/pricing.go:58-91 | the digit scan and checks equal the specified parser, errors included |
| Money.PicoRoundTrip | internal/audit/pricing.go:51-91 | printing then parsing gives the amount back exactly when it lies between 0 and 100000 CNY |
| Money.NegativeIsRefused | internal/audit/pricing.go:51-91 | a printed negative amount is refused by the parser |
| Money.PicoStringCanonical | internal/audit/pricing.go:51-57 | printed amounts carry no superfluous zero |
| Money.CanonicalIsPicoString | internal/audit/pricing.go:51-91 | a canonical text that parses to an amount is the text printed for it |
| MoneyTexts.ReadsExactly | internal/audit/pricing.go:58-91 | the parser reads exactly the texts that denote an amount up to 100000 CNY, digits with perhaps a dot and up to twelve decimals and space around, and reads them as that amount |
| Money.EvaluationStringAgrees | internal/audit/evaluation_runs.go:572-580 | both printers write the same notation for every non-negative amount |
| Money.EvaluationRoundTrip | internal/audit/evaluation_runs.go:561-580 | reading undoes printing for every non-negative integer, beyond int64 too |
| Ledger.CostLedger.Totals | internal/audit/billing.go:148-153 | one pass gives the day's and the month's exposure and the number of unforeseeable rows |
| Ledger.CostLedger.ReserveCost | internal/audit/billing.go:95-181 | refused without effect, or one new row and its entry, as specified |
| Ledger.CostLedger.SettleCost | internal/audit/billing.go:182-247 | writes the charge of the entry's own price snapshot, and only while the row is open |
| Ledger.CostLedger.ReconcileCost | internal/audit/billing.go:521-562 | replaces a pending or estimated charge by the billed amount and records the adjustment |
| Ledger.CostLedger.Cleanup | internal/audit/store.go:632-636 | reservations older than two minutes become pending, all else stays |
| Ledger.CostLedger.SaveBudget | internal/audit/billing.go:313-358 | limits that do not parse, an unknown client and a stale form are refused without effect; otherwise the client's limits are replaced and nothing else |
| LedgerRuns.BooksStayInOrder | internal/audit/billing.go:95-247 | in every run ids are unique, a row's amount is null exactly while it is reserved or pending, and rows match the entries handed out |
| LedgerRuns.ChargeWithinReservation | internal/audit/billing.go:190-204 | a settlement within the allowance never raises a row's exposure |
| LedgerRuns.BudgetsHold | internal/audit/billing.go:135-161 | daily and monthly exposure stay within the limits in every reachable state of concurrent reservations, settlements, sweeps, reconciliations whose amount fits and budget edits that do not undercut what was used |
| LedgerRuns.MonthBegins | internal/audit/billing.go:135-161 | a month without rows satisfies the invariant for any limits |
| LedgerRuns.ReconcileEffect | internal/audit/billing.go:529-562 | a budget that was kept survives a reconciliation if and only if the billed amount fits what the other calls of the row's day and month leave of both limits |
| LedgerRuns.StepMovesForward | internal/audit/billing.go:166-172 | a step leaves a row alone or moves it strictly forward in its status order, keeping its price, date and reservation |
| LedgerRuns.ChargedAtMostTwice | internal/audit/billing.go:182-247 | over any run a row changes at most twice: one settlement or sweep, then one reconciliation |
| LedgerRuns.SettleTwice | internal/audit/billing.go:239-242 | a repeated settlement changes nothing |
| LedgerCharges.ReservedExactly | internal/audit/billing.go:95-181 | a call is reserved exactly when its cost can be computed, its key admits it, its id is new and, if it costs and the client has limits, it and every open call of the month can be priced and both limits stay kept; it adds one row that counts the whole allowance at the dearest rates |
| LedgerCharges.SettlementCharges | internal/audit/billing.go:182-247 | a settlement touches only its open row, and makes it free for a cached answer or a call not sent, the bill at the tariff of start and end for a reported usage with a price, and otherwise a check by hand |
| LedgerCharges.AmountsAreBills | internal/audit/billing.go:182-247 | in every run every amount in the books is the bill of a usage settled for that call, nothing for a call cached or not sent, or the amount an administrator gave |
| LedgerCharges.SweptIsPutAside | internal/audit/store.go:632-636 | a sweep puts aside exactly the reservations more than two minutes old; they keep their exposure, and a settlement that comes later changes nothing |
| LedgerCharges.LogAlwaysAgrees | internal/audit/billing.go:521-562 | in every run each entry of the adjustment log is of a reconciled row that was pending or estimated, and each reconciled row has exactly one |
| LedgerCharges.ReconciledExactly | internal/audit/billing.go:521-562 | a reconciliation is accepted exactly when a reason is given, the text is an amount and the row is pending or estimated; it sets that row and logs what was there, and otherwise changes nothing |
| LedgerCharges.SavedExactly | internal/audit/billing.go:313-358 | a budget form is accepted exactly when both limits can be read, the client exists and the form is current; it sets just this client's limits to what was typed |
| Ingress.IngressBucket.RefillIngress | internal/audit/ingress.go:32-41 | the refill in place equals the specified one |
| Ingress.IngressGuard.AcquireSlot | internal/audit/ingress.go:43-89 | sweep, refills, rate check, concurrency check and admission equal the specified decision and new state |
| Ingress.IngressGuard.ReleaseSlot | internal/audit/ingress.go:80-88 | the first release vacates both buckets, a repeated one changes nothing |
| IngressRuns.SlotsAlwaysKept | internal/audit/ingress.go:50-88 | a bucket with requests in flight is never recycled, active counts equal the releases outstanding and keep their limits, the table keeps its size |
| IngressRuns.ActiveCountsAddUp | internal/audit/ingress.go:75-88 | the active counts over the table sum to the global one and to the outstanding releases |
| IngressRuns.TrafficIsBounded | internal/audit/ingress.go:32-79 | in any d seconds at most rpm + rpm * d / 60 requests are admitted, per address and in all |
| IngressRuns.RecyclingIsInvisible | internal/audit/ingress.go:49-62 | beside a guard that never recycles, every request not refused for a full table gets the same verdict and leaves the same tokens |
| IngressVerdicts.VerdictExactly | internal/audit/ingress.go:43-79 | in every reachable state a request is refused for room exactly when its address is new to a full table and no sweep is due or every address in it is in use or asked within the last minute; else for its rate exactly when admitting it would exceed burst and rate of its address or of everyone in some stretch of time up to now; else for concurrency exactly when as many requests are in flight as allowed; else it is admitted |
| IngressVerdicts.AlwaysTight | internal/audit/ingress.go:32-41 | the tokens left are never fewer than its admissions leave of burst and rate: there is always a stretch of time up to now in which admissions and tokens are all that is allowed |
| IngressVerdicts.SweepsAMinuteApart | internal/audit/ingress.go:50-58 | an address leaves the table only idle for a minute, in a sweep that was due, and the next one is due a minute later |
| IngressVerdicts.IdleEntriesGiveWay | internal/audit/ingress.go:50-62 | after a quiet minute a new address is refused for room exactly while the table is full of addresses with requests in flight |
| Admission.RequestAdmission.AcquireBody | internal/audit/runtime.go:69-86 | admission, refusal and the charge for an unknown length are as specified |
| Admission.RequestAdmission.ReleaseBody | internal/audit/runtime.go:84-85 | the first release gives count and bytes back, a repeated one changes nothing |
| Admission.LoadIsConserved | internal/audit/runtime.go:62-86 | in every run count and bytes are the sums over the requests in flight, a body of unknown length at its limit, and within the limits |
| Admission.AdmittedExactly | internal/audit/runtime.go:69-86 | in every reachable state a body within its limit is admitted exactly when a place is free and, whatever sizes the bodies in flight and it turn out to have, together they fit the memory set aside |
| KeyedGate.Gatekeeper.Register | internal/audit/keyed_gate.go:19-30 | finds or makes the key's entry and counts one reference more |
| KeyedGate.Gatekeeper.Grant | internal/audit/keyed_gate.go:39-42 | takes a free semaphore |
| KeyedGate.Gatekeeper.Free | internal/audit/keyed_gate.go:41-42 | the release frees the semaphore before its reference is dropped |
| KeyedGate.Gatekeeper.Drop | internal/audit/keyed_gate.go:31-38 | drops a reference and deletes the key's entry with the last one |
| KeyedGate.OneHolderPerKey | internal/audit/keyed_gate.go:19-47 | in every interleaving at most one request holds a key, across deletion and re-creation of its entry |
| KeyedGate.EntriesAreLive | internal/audit/keyed_gate.go:29-38 | counts equal the waiters, holders and leavers; an entry is in the map exactly while its count is positive; nobody live means an empty map |
| KeyedGate.WaiterServedWhenFree | internal/audit/keyed_gate.go:39-42 | a waiter can be granted exactly when no request holds its key |
| CacheGate.CacheLock | internal/audit/cache_route.go:44-60 | no gate for an uncacheable candidate or none at all, otherwise the joined sorted keys |
| CacheGate.NoGate | internal/audit/cache_route.go:44-60 | a request goes through no gate exactly when it has no candidate or one that is not cacheable |
| CacheGate.SameGate | internal/audit/cache_route.go:44-60 | two requests meet at one gate exactly when they ask for the same keys, in whatever order |
| CacheRoute.BestLevel | internal/audit/cache_route.go:75-84 | the best priority left and the weight on it |
| CacheRoute.Pick | internal/audit/cache_route.go:85-95 | the member of the level whose share contains the draw |
| CacheRoute.OwnerUnique | internal/audit/cache_route.go:85-95 | shares do not overlap, so the draw decides |
| CacheRoute.RemoveAt | internal/audit/cache_route.go:97-97 | the pick is taken out of the working copy in place, order kept |
| CacheRoute.CachedRoute | internal/audit/cache_route.go:61-137 | terminates on a clone; each visit is the one its draw makes among the candidates left, candidates are visited at most once in non-decreasing priority, the outcome is that of the last one, all before it had no active verdict |
| CacheRoute.VisitsDetermined | internal/audit/cache_route.go:74-97 | candidates and draws alone decide whom a lookup visits and in which order; verdicts, checks and bookings only decide where it stops |
| CacheRoute.LookupComplete | internal/audit/cache_route.go:73-136 | a hit comes from the best priority with an active cached verdict; a miss means none; without database errors a hit happens exactly when there is one |
| CacheRoute.OutcomeExactly | internal/audit/cache_route.go:98-136 | a lookup misses exactly when no candidate has a cached verdict that is not known to be out of force; otherwise the last one visited decides it, from the best level that has one, and the outcome is its verdict unless check, booking or settlement failed |
| EvaluationPlan.EvaluationChannels | internal/audit/evaluation_pacing.go:22-32 | the channels of a target are the enabled, bound ones with an active credential, in order |
| EvaluationPlan.Delay | internal/audit/evaluation_pacing.go:34-47 | the loop computes the specified delay, none when a keyword rule answers |
| EvaluationPlan.DelayIsShortest | internal/audit/evaluation_pacing.go:34-47 | a later time is reached by the delay exactly when every used channel of the trial is due at it |
| EvaluationPlan.PacingInterval | internal/audit/evaluation_pacing.go:15-20 | RPM intervals together exceed a minute |
| EvaluationPlan.EvaluationTimeout | internal/audit/evaluation_pacing.go:63-77 | the loops compute half an hour, the longest interval of each target per trial, and the retry pauses |
| EvaluationBudget.EstimateTrial | internal/audit/evaluation_runs.go:223-273 | every error path and the capped sum of the largest quotes equal the specified estimate |
| EvaluationBudget.PicksWithinTop | internal/audit/evaluation_runs.go:258-272 | any at most k different channels cost no more than the k largest reservations |
| EvaluationBudget.EstimableMembers | internal/audit/evaluation_runs.go:233-242 | the channels quoted are exactly the bound, usable ones of the target |
| EvaluationBudget.QuotedIsRoutable | internal/audit/evaluation_pacing.go:22-32 | the channels a trial is quoted for are exactly those it may be routed to |
| EvaluationEstimates.EstimateIsWorstCase | internal/audit/evaluation_runs.go:223-273 | a trial that needs a call has an estimate exactly when it has a channel, each one has a quote and no choice of them exceeds 100000 CNY; no choice of channels its calls may go to then comes to more than the estimate, and some choice to just that |
| EvaluationEstimates.BilledExactly | internal/audit/evaluation_costs.go:27-58 | an attempt counts nothing when settled unsent, its bill when settled with a verified usage, and its quote as long as its charge is not known |
| EvaluationBudget.BillWithinQuote | internal/audit/evaluation_costs.go:27-58 | an attempt within its allowance costs or holds at most its quote, and nothing when it was neither sent nor left unsettled |
| EvaluationBudget.TrialWithinEstimate | internal/audit/evaluation_runs.go:223-273 | known charges and open reservations of a trial together never exceed its estimate |
| Evaluation.EvaluationRun.Admit | internal/audit/evaluation_runs.go:380-417 | a trial goes ahead exactly when the run still stands, the estimate exists, fits what is left of the budget, and the rate gate lets it pass |
| Evaluation.EvaluationRun.Wait | internal/audit/evaluation_runs.go:418-438 | the wait is the longer of the pacing delay and the retry pause, and the clock moves by exactly the idle time, the wait and the time overslept |
| Evaluation.EvaluationRun.Perform | internal/audit/evaluation_runs.go:418-509 | wait, calls and record equal the specified ones: each call is logged with its time, the row is written, the cost joins what was spent, and every failure ends the run where it does |
| Evaluation.EvaluationRun.Retry | internal/audit/evaluation_runs.go:379-513 | the retry loop leaves clock, pacer, calls, spending and row exactly as its trials, one after the other, make them |
| Evaluation.ExecuteEvaluation | internal/audit/evaluation_runs.go:365-517 | the nested loops with their early ends and the final sweep leave the run's books exactly as its cells in row order make them |
| EvaluationRuns.TriedBooks | internal/audit/evaluation_runs.go:380-509 | one trial, exactly: whether its calls go out, its outcome is written and its cost booked, and whether and how it ends the run, from what it met, what was spent and whether it had to wait |
| EvaluationRuns.TriedTimes | internal/audit/evaluation_runs.go:418-475 | a trial let through waits for the shortest time after which its retry pause is over and every channel of it is due, and then its calls go out one after the other; one not let through takes no time |
| EvaluationRuns.PacerIsLastSend | internal/audit/router.go:728-730 | wherever a run stands, the pacer holds the time of each channel's last call and of no other |
| EvaluationRuns.RunIsAccounted | internal/audit/evaluation_runs.go:365-517 | rows are settled in order as their trials came out and none is left pending or running; a completed run paid every trial and logged every call once; one that ended early was halted by a trial that ran, with all trials of its cell before it failed, paid and logged, and given what was spent that trial ends the run in just that way; row, money and log show exactly how far it got |
| EvaluationLimits.SendsStayPaced | internal/audit/evaluation_pacing.go:34-47 | over a whole run consecutive calls on a channel, whatever trials they belong to, start at least its interval apart |
| EvaluationLimits.RunWithinRpm | internal/audit/evaluation_pacing.go:15-47 | a run alone never starts more than RPM calls on a channel in any minute |
| EvaluationLimits.WaitingFits | internal/audit/evaluation_runs.go:418-438 | however a run goes, its waiting stays within what its cells may cost |
| EvaluationLimits.BudgetKept | internal/audit/evaluation_runs.go:392-509 | a run never spends more than its budget while trials keep to their estimates |
| EvaluationWaiting.AllowanceIsTimeout | internal/audit/evaluation_pacing.go:63-77 | all the waiting the cells may cost is the run's timeout less half an hour |
| EvaluationWaiting.CellCount | internal/audit/evaluation_runs.go:193-207 | one row for every sample, target and repetition |
| EvaluationBudget.AttemptLoopIsFair | internal/audit/router.go:643-775 | the attempt loop's contract gives the attempts a trial's cost bound asks for |
| EvaluationTrials.AttemptsMakeTrial | internal/audit/router.go:655-795 | the attempts of one attempt loop make a trial that keeps to its estimate and calls different channels of its target |
| EvaluationTrials.FairRunKeepsItsLimits | internal/audit/evaluation_runs.go:365-517 | when every trial is made of the attempts of a fair attempt loop, the run stays within its budget, keeps its pace, and no minute holds more calls of a channel than its RPM |

## Left out

- HTTP handlers, sessions, JSON decoding, provider payloads and stream parsing are input and output; usage reports enter after decoding, with missing fields as options.
- Digests, HMAC and credentials are opaque identifiers; the text that is digested for a gate key stands for its digest.
- Database locking is not modelled: each ledger transaction is one atomic step, as `FOR UPDATE` makes it.
- `Store.Rate` and its waiting loop: a trial is let through or refused, and the time spent there counts as idle time.
- Time zones and tariff hours: the day, month and tariff period of an instant are arbitrary functions.
- Floating-point rounding of ingress tokens: tokens are real numbers. The counter of rejected requests and its log line are left out.
- Clock reads are taken never to go backwards; the time of a call is no earlier than the acquisition it belongs to.
- The engine's slot channel is a parameter of an acquisition (full or not); sends to it happen outside the modelled code.
- Status texts, notes, messages, latencies and upstream request ids of rows and logs are not modelled, nor the tariff label of a row.
- Policy, key, credential and channel administration; their validated bounds (priority 1 to 100, weight 1 to 1000, unique bindings) enter as preconditions.
- Router.Engine.ReleaseRoute: finds the channel by its id, where the Go closure keeps a pointer; entries of the table are never removed or replaced, so both reach the same state.
- LedgerRuns.BudgetsHold: holds from a state in which the limits are kept, for calls within their allowance and for budget edits that do not undercut what was used.
- Money.EvaluationRoundTrip: covers plain decimals; the other rational notations the Go parser reads (fractions, exponents) are not part of this model.
- AttemptLoop.ExecuteRoute: the shared table it meets in each iteration is arbitrary, since other requests move it meanwhile; preparing candidates, images and the final cache write are left out.
- CacheRoute.CachedRoute: the response and log fields of a hit beyond channel and verdict are left out.
- Evaluation.ExecuteEvaluation: the stored completed count and messages are left out, the database checks before a trial are one answer, and cancellation inside a wait counts the whole wait.
- EvaluationBudget.EstimateTrial: the checks of the policy's settings beyond the attempt bound and the unique, named bindings are one answer of the plan.
- SQL analytics, price matching, evaluation comparison, log filters and export, and recovery of evaluations after a restart.
