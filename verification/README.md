# UniGrok: fenced missions, metered calls, cabinet retrieval

A Dafny model of the stateful cores of UniGrok, with proofs of what they keep over every run. It verifies
with `dafny verify dfyconfig.toml`.

* **Missions.** `Billing*.dfy` is the billing snapshot in a mission's checkpoint: reading a JSON checkpoint,
  folding one usage report in (with its loops, as methods), and writing it back. `BillingReads.dfy` says which entry of
  a document each number is read from; the bounded snapshot is proved to be the view of an unbounded book of receipts;
  `BillingFold.dfy` and `BillingReply.dfy` say what replies show of it. `MissionStore.dfy` is the mission row and its
  transactions, as a class. `Epoch.dfy` lets any number of seal calls, abandoned quanta, claims, renewals, sweeps and
  job writes interleave on one row, one store call a step; `EpochSafety.dfy` is the invariant, `EpochTheorems.dfy` what
  follows for every history, `EpochCalls.dfy` what each step may write and on whose verdict a mission completes, and
  `EpochAlone.dfy` a call that nobody disturbs, from its first step to its reply.
* **Metered calls.** `Breaker.dfy` and `Ledger.dfy` are the circuit breakers and the daily spend ledger as
  classes; `BreakerRuns.dfy` and `LedgerRuns.dfy` run each with unboundedly many outstanding calls;
  `GuardedCall.dfy` puts one ledger and a breaker for each key behind any number of guarded calls.
  `Usage.dfy`, `Recovery.dfy` and `RecoveryConserves.dfy` carry cost and tokens through retries, plane swaps and
  errors; `RecoveryOutcomes.dfy` says what comes out of a request, and when it moves on.
* **The cabinet.** `Ranking.dfy`, `Walk.dfy`, `WalkOrder.dfy` and `WalkRounds.dfy` are the best-first walk; `Text.dfy`,
  `Layers.dfy`, `Packing.dfy` and `PackingOrder.dfy` the packer; `Percent.dfy`, `CabinetUri.dfy`,
  `CabinetUriAccepts.dfy` and `CabinetUriRoundTrip.dfy` the URIs (percent-encoding of RFC 3986, sections 2.1 and 2.3).
* **Sign-in.** `Limiter.dfy` and `LimiterRuns.dfy` are the sliding-window failure limiter.
* **Leases as text.** `Lease.dfy` compares ISO timestamps as strings and as times.

Where the code updates fields or loops, the model is a method proved equal to a function of the old state, and
the lemmas are about that function: what it makes of its input is stated there without naming its helpers.

Seven places where the code does less than one would expect, each stated exactly:

* Cost is lost when a retry is cancelled after a paid first answer, when the other plane's call is cancelled, and
  when choosing another plane raises: those exceptions escape the handlers that keep receipts.
  `RecoveryConserves.RequestConserves` says that cost is conserved if and only if no such interruption follows a paid call;
  `RecoveryConserves.CancelledRetryLosesTheFirstReply` is an instance.
* Normalising a snapshot twice can lower an overflow counter, because the count of dropped entries is added after
  clamping: `BillingNormal.NormalizeTwice` has the condition, `BillingNormal.NormalizeTwiceCanDiffer` an input.
* A second delivery of one report leaves the whole snapshot alone if and only if every attempt it lists is among the
  last 64 of the stored attempts followed by the new ones; totals, quanta and receipts it always leaves alone
  (`BillingReplay.Replay`). `BillingReplay.ReplayCanMoveAttempts` is a report of 65 attempts that does not fit.
* A usage document that holds only an alias such as `prompt_tokens` is not a usage report at all
  (`src/unigrok_public/mission/epoch.py:196-209`), although its tokens can be read (`:79-106`):
  `BillingAliases.TokensReachTheirReceipt` says for which documents the tokens reach a receipt,
  `BillingAliases.PromptTokensAreDropped` is an instance. `BillingLedger.ReportedTokens`, which the bill sums, counts
  nothing for such a document.
* A reply of a seal call shows the call's own usage as billed, whether or not it ever lands. The totals shown are the
  durable ones exactly under the conditions of `BillingReply.SealReplyHoldsTheLedger` and
  `BillingReply.SealReplyShowsTheBill`; `BillingReply.LostLeaseShowsItsUsage` is a run in which they are not.
* Waiting `retry_after` seconds is enough if and only if no more than a second was left, a whole number of seconds, or
  at least a millisecond beyond one (`Limiter.RetryAfterIsEnough`); otherwise it is short by less than a millisecond.
  `Limiter.RetryAfterCanBeShort` asks for one second when 1.0005 are left.
* Once one token of the budget is left, `pack_budget` adds nothing more: one word is estimated at two tokens
  (`PackingOrder.FillIsPrefix`).

## Model

| member | source | states |
|---|---|---|
| Billing.FindGeneration | src/unigrok_public/mission/epoch.py:265-272 | finds the first receipt of a generation, or reports that there is none |
| Billing.PostInPlace | src/unigrok_public/mission/epoch.py:264-332 | the search and the updates one by one amount to posting the receipt (raise by the increase only, or append a new generation, or ignore an old one) and trimming the window |
| Billing.AppendAttempts | src/unigrok_public/mission/epoch.py:334-350 | scanning with a set of seen keys appends each new attempt once and keeps the last 64 |
| Billing.MergeMissionBilling | src/unigrok_public/mission/epoch.py:226-351 | the whole fold, from any JSON value, is the function that the reading, replay, order and history lemmas are about |
| BillingNormal.UsageNumbersRange | src/unigrok_public/mission/epoch.py:79-106 | token counts are within their caps, and a total is there as soon as a part is; which entry each comes from is `BillingReads.UsageNumbersRead` |
| BillingReads.UsageNumbersRead | src/unigrok_public/mission/epoch.py:79-106 | each count is that of the first of its four names at the top level, else of the first in the nested `usage` dict, else absent; a total that neither has is the clamped sum of the parts |
| BillingReads.NestedCountsCount | src/unigrok_public/mission/epoch.py:79-106 | a document whose only token names are nested has the counts of the nested document |
| BillingReads.ApiReplyIsBilled | src/unigrok_public/xai_api.py:234-261 | a reply of the shape that every API call returns is billed with its cost and its three nested counts |
| BillingReads.MoneyReads | src/unigrok_public/mission/epoch.py:57-64 | money is cut to the range from nothing to a billion; what is no finite number costs nothing |
| BillingReads.CountsRead | src/unigrok_public/mission/epoch.py:67-72 | counts are truncated and cut to the range from nothing to 10^15 |
| BillingReads.PlanesRead | src/unigrok_public/mission/epoch.py:75-76 | five words name a plane, whatever their case and white space |
| BillingReads.ReceiptSays | src/unigrok_public/mission/epoch.py:129-140 | which entries a stored receipt is read from |
| BillingReads.AttemptSays | src/unigrok_public/mission/epoch.py:109-126 | which entries an attempt is read from, under the generation it is stamped with |
| BillingReads.ListsRead | src/unigrok_public/mission/epoch.py:155-193 | of a stored list every dict is read, in order, and nothing else |
| BillingReads.ReportSays | src/unigrok_public/mission/epoch.py:226-262 | the receipt of a report has its cost, its counts, the number of its attempts, and its plane under either name |
| BillingReads.LargerOfBoth | src/unigrok_public/mission/epoch.py:277-324 | two reports of one generation make the larger of both in cost, attempts and every count, with the plane named last |
| BillingReads.NewestAreRead | src/unigrok_public/mission/epoch.py:155-193 | of a stored list the last 32 receipts and the last 64 attempts are read, and the rest is counted |
| BillingReads.TotalsAreRead | src/unigrok_public/mission/epoch.py:155-193 | the totals of a stored snapshot are the cost, quanta and counts that stand in it |
| BillingReads.LastThirtyTwoAreKept | src/unigrok_public/mission/epoch.py:326-332 | in every history the window holds the receipts of the last 32 generations billed |
| BillingNormal.NormalizeBounded | src/unigrok_public/mission/epoch.py:155-193 | whatever the checkpoint holds, what is read is within every cap and window and has only closed labels |
| BillingNormal.ReceiptReadsBack | src/unigrok_public/mission/epoch.py:129-140 | a receipt written to the checkpoint is read back as itself |
| BillingNormal.AttemptReadsBack | src/unigrok_public/mission/epoch.py:109-126 | so is an attempt, with its generation, plane, stage and outcome |
| BillingNormal.SnapshotReadsBack | src/unigrok_public/mission/epoch.py:155-193 | a bounded snapshot is read back as itself, its two overflow counters clamped |
| BillingNormal.NormalizeTwice | src/unigrok_public/mission/epoch.py:155-193 | normalising again changes nothing if and only if both overflow counters are within their cap |
| BillingNormal.NormalizeTwiceCanDiffer | src/unigrok_public/mission/epoch.py:155-193 | a checkpoint on which normalising again does change a counter |
| BillingNormal.ApplyBounded | src/unigrok_public/mission/epoch.py:226-351 | folding a report in keeps the snapshot within its caps and windows |
| BillingReplay.PostTwice | src/unigrok_public/mission/epoch.py:264-332 | posting one receipt twice is posting it once, from every bounded snapshot |
| BillingReplay.ReplayApplied | src/unigrok_public/mission/epoch.py:264-350 | applying a report again leaves the ledger alone, and everything if and only if all its attempts fit the window behind the stored ones |
| BillingReplay.Replay | src/unigrok_public/mission/epoch.py:226-351 | the same for whole merges onto any checkpoint, malformed ones included; a document that is no report only clamps the overflow counters |
| BillingReplay.AppendUnseenSplits | src/unigrok_public/mission/epoch.py:334-342 | the scan with a growing set appends exactly the listed attempts not stored yet, each once, in order |
| BillingReplay.ReplayCanMoveAttempts | src/unigrok_public/mission/epoch.py:334-350 | a report of 65 attempts whose second delivery changes the snapshot |
| BillingReplay.ReplayOfMany | src/unigrok_public/mission/epoch.py:334-350 | a report of n distinct attempts leaves the empty snapshot alone on its second delivery if and only if n is at most 64 |
| BillingReplay.PostsCommuteApart | src/unigrok_public/mission/epoch.py:264-332 | receipts for two recorded generations may be posted in either order, saturation included |
| BillingReplay.PostsCommuteTogether | src/unigrok_public/mission/epoch.py:277-324 | so may two for one recorded generation, the plane label aside |
| BillingReplay.ReportsCommute | src/unigrok_public/mission/epoch.py:226-351 | whole merges of two such reports give the same totals and receipts in either order |
| BillingAliases.TokensReachTheirReceipt | src/unigrok_public/mission/epoch.py:196-253 | reported for a generation not heard of before, a document's tokens are those of its receipt if and only if one of the six report keys is there or no alias is; a document that is no report changes nothing |
| BillingAliases.PromptTokensAreDropped | src/unigrok_public/mission/epoch.py:79-106 | a hundred tokens under `prompt_tokens` alone are read as a hundred and change nothing |
| BillingLedger.StepAppends | src/unigrok_public/mission/epoch.py:294-332 | a new generation moves window, counters and saturated totals as it extends the book |
| BillingLedger.SnapshotTracksBook | src/unigrok_public/mission/epoch.py:226-351 | in every history from an empty checkpoint the snapshot is the bounded view of the book: its totals are the book's, exact below the caps and saturated above |
| BillingLedger.SnapshotStaysBounded | src/unigrok_public/mission/epoch.py:155-193 | and it stays within its windows, with pairwise distinct attempts |
| BillingLedger.TotalsBalance | src/unigrok_public/mission/epoch.py:301-332 | kept receipts increase and end at the last generation; below the caps cost and each token total are what was trimmed plus what is kept, and quanta are kept receipts plus trimmed ones |
| BillingLedger.ClosingIsFinal | src/unigrok_public/mission/epoch.py:326-332 | a step closes at most one receipt of the book and never touches a closed one |
| BillingLedger.BookOfOnce | src/unigrok_public/mission/epoch.py:226-351 | when generations never go back and each has one result, replays leave no trace in the book |
| BillingLedger.BilledOnce | src/unigrok_public/mission/epoch.py:226-351 | then the stored cost and tokens are the sums over distinct generations, however often each was delivered |
| BillingReply.ApplyMissionBilling | src/unigrok_public/mission/epoch.py:370-386 | writing the snapshot into a reply key by key |
| BillingReply.ReplyShowsSnapshot | src/unigrok_public/mission/epoch.py:370-386 | a billed reply shows the cost, the token counts and the attempts of the snapshot it is given, keeps its own entry for a count never reported, and touches no other key; an unbilled one is left as it was |
| BillingReply.ReplyShowsTheBill | src/unigrok_public/mission/epoch.py:389-393 | in every history a reply built from the durable row alone shows, in cost and in each token count, the sum of the one usage of each generation that landed a write |
| BillingFold.FoldedLedger | src/unigrok_public/mission/epoch.py:359-367 | folding one more report into any stored history leaves totals, quanta and receipts alone if and only if it is no report, the kept receipt of its generation dominates it, or its generation has none and is not ahead |
| BillingFold.FoldedTotals | src/unigrok_public/mission/epoch.py:359-367 | with one result each, the fold adds just what a generation reports when that is ahead of the last one billed, and nothing otherwise; what has landed is never ahead |
| BillingReply.SealReplyHoldsTheLedger | src/unigrok_public/mission/epoch.py:421-544 | in every history, the exact condition for the billing a seal call shows to hold the durable ledger |
| BillingReply.SealReplyShowsTheBill | src/unigrok_public/mission/epoch.py:637-740 | with one result each, a seal reply shows the bill of what has landed plus the call's own usage when that is ahead, and equals the durable total exactly when it is not, reports nothing, or the total is at its cap |
| BillingReply.LostLeaseShowsItsUsage | src/unigrok_public/mission/epoch.py:525-544 | a call that lost its lease before it began shows a dollar that never lands |
| MissionStore.Store.ClaimMission | src/unigrok_public/state.py:3432-3495 | claims a free or expired lease with the next generation, or renews the caller's own without a new one |
| MissionStore.Store.Heartbeat | src/unigrok_public/state.py:3513-3534 | renews the expiry if and only if token and generation are current |
| MissionStore.Store.CasStatus | src/unigrok_public/state.py:3554-3665 | writes a legal status if and only if status, version, generation and token are as expected; version up by one, generation too when the lease is cleared |
| MissionStore.Store.TouchEnvelope | src/unigrok_public/state.py:3695-3741 | fenced, never on a terminal row, never lowers the envelope, leaves the version |
| MissionStore.Store.PutMissionArtifact | src/unigrok_public/state.py:3824-3867 | stores under a digest once, only for the owner, and says whether the caller owned the lease |
| MissionStore.Store.RequeueExpired | src/unigrok_public/state.py:4091-4126 | takes an expired lease away, with a new version and generation |
| MissionStore.ClaimByExpiry | src/unigrok_public/state.py:3432-3495 | a claim succeeds if and only if the row can be claimed and nobody else holds a lease that has not expired; only renewing an own lease keeps the generation |
| MissionStore.CasIsFenced | src/unigrok_public/state.py:3554-3665 | status, version, generation and token must each be as expected and the move be legal, and together they suffice; then this is the row that is left |
| MissionStore.SweepsOnlyTheExpired | src/unigrok_public/mission/sweeper.py:26-53 | a sweep takes away only a lease that has expired and is as it was observed, of a mission that runs, waits or is dormant |
| MissionStore.ArtifactsAreWriteOnce | src/unigrok_public/state.py:3824-3867 | an artifact is added under its digest by the owner of the lease and never overwritten |
| MissionStore.OwnersOnly | src/unigrok_public/state.py:3513-3534 | a renewal moves the expiry alone, for the current lease only; the touch of an envelope likewise, and never down |
| MissionStore.TheTableEndsMissions | src/unigrok_public/mission/types.py:18-70 | only a mission under verification completes, and no end is left |
| MissionStore.TheTableStopsMissions | src/unigrok_public/mission/types.py:18-70 | from where a mission can fail, be cancelled or run out of budget |
| MissionStore.ClaimIsLater | src/unigrok_public/state.py:3432-3495 | a claim never takes back what the fence relies on, and writes no terminal status |
| MissionStore.CasIsLater | src/unigrok_public/state.py:3554-3665 | neither does a status write: a generation keeps its one token, a version its one status, a terminal row everything |
| MissionStore.RequeueIsLater | src/unigrok_public/mission/sweeper.py:26-53 | neither does a sweep |
| EpochSafety.FreezeOk | src/unigrok_public/mission/epoch.py:602-612 | the unchecked artifact write leaves the projection stored for as long as the generation lasts |
| EpochSafety.AdvanceOk | src/unigrok_public/mission/epoch.py:695-710 | advancing RUNNING to VERIFYING keeps the invariant, and what it bills lands on the checkpoint it was computed from |
| EpochSafety.CommitOk | src/unigrok_public/mission/epoch.py:804-855 | so does the commit step, whichever way it goes (`EpochCalls.CommitDecides`); when it misses, every later write with the same expectations must miss too |
| EpochSafety.FailOk | src/unigrok_public/mission/epoch.py:870-959 | so does the FAILED write |
| EpochSafety.WaitOk | src/unigrok_public/mission/epoch.py:962-990 | so does the write back to WAITING_EVENT |
| EpochSafety.ReleaseOk | src/unigrok_public/server.py:6132-6172 | so does the release by a quantum that ended in an error |
| EpochSafety.FetchOk | src/unigrok_public/mission/epoch.py:468-519 | the projection of a complete row is always found, so the notice that it is unavailable is never sent |
| EpochSafety.NextOk | src/unigrok_public/mission/epoch.py:396-1042 | every step of every call and of its environment keeps the invariant and takes nothing back |
| EpochSafety.RunOk | src/unigrok_public/mission/epoch.py:396-1042 | so the invariant holds in every reachable state |
| EpochSafety.LaterAlways | src/unigrok_public/mission/epoch.py:396-1042 | a reachable state's row, artifacts and winner bear on everything reachable from it |
| EpochCalls.StepWritesOnce | src/unigrok_public/mission/epoch.py:695-990 | a step of a call writes the status at most once, as the owner of the current lease and from its own stage, and then bills the call's usage once; every other step leaves status, fence, checkpoint, bill and winner alone |
| EpochCalls.VerdictWasGiven | src/unigrok_public/mission/epoch.py:748-803 | in every history a call commits on exactly the verdict that its own verification gave before |
| EpochCalls.CompletedOnAVerdict | src/unigrok_public/mission/epoch.py:804-828 | in every history a mission is completed and a winner named only by the commit of a call whose verification passed before, and that call with its candidate is the winner |
| EpochCalls.CommitDecides | src/unigrok_public/mission/epoch.py:804-855 | in every history the commit of a passed candidate whose row still has the status VERIFYING, version, generation and token it read completes the mission, wins it and is the reply; any other leaves status, fence, checkpoint, bill and winner as they were |
| EpochCalls.LostCallsStop | src/unigrok_public/mission/epoch.py:555-737 | a call that lost its lease, could not bind its envelope or was fenced out reports the status it finds, or reads out how the mission ended |
| EpochCalls.OthersAct | src/unigrok_public/mission/epoch.py:396-420 | everything that is not a step of a call leaves all calls alone; a new call begins at its start, and only a reply that its own generation released is mirrored into the job |
| EpochAlone.SealAlone | src/unigrok_public/mission/epoch.py:396-1042 | an undisturbed call, whole: a passing candidate completes the mission and is the reply and the stored job, one that fails for good fails it, any other sends it back waiting; in each case this is the row, bill, artifact, job and reply it leaves |
| EpochAlone.StaleAlone | src/unigrok_public/mission/epoch.py:524-544 | a call without the lease, or for another generation, changes nothing and says so |
| EpochAlone.EndedAlone | src/unigrok_public/mission/epoch.py:437-522 | a call that finds the mission ended reports that end, from the stored job if that speaks for it, else from the row and its artifact |
| EpochAlone.AbandonAlone | src/unigrok_public/server.py:6132-6172 | a quantum that ends in an error gives back its own lease, under the next generation and with what it had spent, and nobody else's |
| EpochTheorems.Agreement | src/unigrok_public/mission/epoch.py:437-522 | in every history at most one terminal status is written, a winner exists exactly when the mission is complete, and every reply or stored job that says so carries the winner's candidate or stored projection |
| EpochTheorems.TerminalForGood | src/unigrok_public/mission/types.py:62-70 | a terminal row and its winner never change again |
| EpochTheorems.PassedOnlyCommits | src/unigrok_public/mission/epoch.py:804-980 | a call whose verification passed writes no status afterwards but COMPLETE, in every interleaving |
| EpochTheorems.DurableBeforeVisible | src/unigrok_public/mission/epoch.py:602-855 | whenever the row is COMPLETE, the projection its checkpoint names is stored, with the winner's text |
| EpochTheorems.BilledExactlyOnce | src/unigrok_public/mission/epoch.py:359-367 | although each call folds its usage in up to three times, the durable totals are the sums of the one usage of each generation that landed a billing write |
| EpochTheorems.GenerationsAreDistinct | src/unigrok_public/mission/lease.py:13-14 | those generations are distinct, and each delivery's generation is among them |
| EpochTheorems.BilledAsLanded | src/unigrok_public/mission/epoch.py:226-351 | without assuming one result each, the durable checkpoint is the bounded view of the book of landed deliveries |
| Breaker.Breakers.BeforeCall | src/unigrok_public/server.py:666-679 | admits a closed call, claims the one probe once the deadline has passed, or refuses |
| Breaker.Breakers.AbandonProbe | src/unigrok_public/server.py:682-707 | a cancelled current probe reopens the breaker for the full delay under a new generation |
| Breaker.Breakers.Success | src/unigrok_public/server.py:710-733 | a current probe closes the breaker, a current call resets the count, anything else is ignored |
| Breaker.Breakers.Failure | src/unigrok_public/server.py:736-761 | a current probe, or the failure that reaches the threshold, trips the breaker under a new generation |
| Breaker.FailureCounts | src/unigrok_public/server.py:736-761 | what one failure changes: the count, and on a trip the trips, the deadline and the generation, the probe flag lowered |
| Breaker.SuccessCounts | src/unigrok_public/server.py:710-733 | what one success changes: the count, and for a probe deadline, generation and flag |
| Breaker.AbandonmentFences | src/unigrok_public/server.py:682-707 | an abandoned current probe waits for the longer of the cooldown and the provider deadline and leaves every count alone |
| BreakerRuns.NextKeepsInv | src/unigrok_public/server.py:666-761 | every call and outcome keeps the invariant of breaker and outstanding calls |
| BreakerRuns.Refines | src/unigrok_public/server.py:666-761 | each step is a step of the machine Closed(n), Open(until), Probing, which keeps its own open and live calls and no generations |
| BreakerRuns.RunRefines | src/unigrok_public/server.py:666-761 | so every run is, event by event, the run of that machine from rest |
| BreakerRuns.History | src/unigrok_public/server.py:666-761 | half-open means one outstanding current probe and an open deadline no other current call; generation counts trips, probe closes and abandons; while closed the count is the current failures since the last success, below the threshold |
| BreakerRuns.StaleOutcomesAreIgnored | src/unigrok_public/server.py:692-761 | whatever a call admitted before a trip reports afterwards changes nothing |
| BreakerRuns.ClosedForBusiness | src/unigrok_public/server.py:666-679 | before the deadline of an open breaker nothing is admitted and nothing moves it |
| BreakerRuns.AbandonedProbeFences | src/unigrok_public/server.py:682-707 | after an abandoned probe no call is admitted before the provider deadline has passed |
| Ledger.LocalBudget.ReserveBudget | src/unigrok_public/caller_budget.py:186-287 | prunes, seeds or reads the day's row, and leases it, denies it, or exhausts the day; a refusal that raises before the commit leaves the table as it was |
| Ledger.LocalBudget.FinishBudget | src/unigrok_public/caller_budget.py:290-344 | charges, exhausts or releases if and only if the token holds the day's lease |
| Ledger.LocalBudget.SettleReply | src/unigrok_public/caller_budget.py:389-418 | adds exactly a valid cost to what the held day has spent, exhausts the day for a missing or negative one |
| Ledger.LocalBudget.SettleError | src/unigrok_public/caller_budget.py:421-462 | charges the sum of the receipts of an error, exhausts the day for a bad one, keeps the lease for none |
| Ledger.ReserveAnswers | src/unigrok_public/caller_budget.py:186-287 | a day without a row is granted below the limit that telemetry reports, one without a lease below the limit it has spent; a live lease makes the caller wait, an expired one is refused |
| Ledger.ReserveLeaves | src/unigrok_public/caller_budget.py:186-287 | a grant leases what was spent; a refusal leaves every row or exhausts the one of a damaged or expired lease; pruning takes only older days |
| Ledger.ReplySettlesForItsCost | src/unigrok_public/caller_budget.py:389-418 | the cost of a reply, exactly, is added to the held day; a missing or negative cost uses the day up; nobody else's day moves |
| Ledger.ErrorSettlesForItsReceipts | src/unigrok_public/caller_budget.py:421-462 | so is the sum of an error's receipts, one by one; a bad one uses the day up, none at all leaves the lease |
| Ledger.ExpiredLeaseExhausts | src/unigrok_public/caller_budget.py:241-263 | the first reservation after the expiry of a left lease is denied and exhausts the day |
| LedgerRuns.RunKeepsInv | src/unigrok_public/caller_budget.py:186-344 | every run keeps rows, tokens, bills and exhausted days in step with the history |
| LedgerRuns.OneSettlerADay | src/unigrok_public/caller_budget.py:303-310 | at most one token of a day can settle, exactly those without a fate can, and their day is below its limit |
| LedgerRuns.NeverSettlesAgain | src/unigrok_public/caller_budget.py:241-263 | a token that was superseded, settled or released can never settle later |
| LedgerRuns.SpentNeverDecreases | src/unigrok_public/caller_budget.py:324-340 | what a day has spent never goes down |
| LedgerRuns.FullDayStaysShut | src/unigrok_public/caller_budget.py:265-269 | a day at its limit never grants again, however the run goes on |
| LedgerRuns.SpentIsBaselinePlusBills | src/unigrok_public/caller_budget.py:324-340 | spent is the baseline plus the settled costs, each token's once, unless the day was exhausted and stands at its limit; the overshoot is under the last cost |
| GuardedCall.RunKeepsInv | src/unigrok_public/server.py:788-815 | any number of guarded calls keeps the invariants of ledger and breakers, and the two in step |
| GuardedCall.RefusalCostsNothing | src/unigrok_public/server.py:798-803 | a breaker refusal is never billed, and its lease is gone when the ledger could be reached |
| GuardedCall.ReleaseLeavesSpending | src/unigrok_public/server.py:798-803 | settling a refusal changes no day's spending |
| GuardedCall.EveryCallIsAccountedFor | src/unigrok_public/server.py:804-815 | an ended call that reached the provider has its cost among the day's bills, or the day is exhausted, or its lease is still held, or the day is pruned; only such calls are billed, each for what `GuardedCall.ChargedWhatItReported` says |
| GuardedCall.ChargedWhatItReported | src/unigrok_public/server.py:788-815 | in every run a call is charged the cost of its reply or the sum of its error's receipts; a missing or negative cost or a bad receipt exhausts the day; a refusal is given back; anything else means that its lease was taken away |
| GuardedCall.ExhaustedDayIsFull | src/unigrok_public/caller_budget.py:324-340 | a day that a call exhausted stands at its limit for as long as it is kept |
| GuardedCall.GateAsksTheBreaker | src/unigrok_public/server.py:793-803 | a reserved call is refused exactly while its breaker probes or waits for its deadline |
| GuardedCall.ErrorsAreHeard | src/unigrok_public/server.py:804-815 | an error keeps its receipts for the settlement and is a failure to its breaker, as the machine of `BreakerRuns` has it |
| GuardedCall.RepliesAreHeard | src/unigrok_public/server.py:813-815 | a reply is kept for the settlement and is a success to its breaker |
| GuardedCall.CancellationsAreHeard | src/unigrok_public/server.py:806-808 | a cancelled call settles nothing and is an abandonment to its breaker |
| GuardedCall.LeftLeaseExhaustsTheDay | src/unigrok_public/caller_budget.py:241-263 | the first reservation after the expiry of such a lease exhausts the day, in every run |
| Usage.SanitizingKeepsSums | src/unigrok_public/server.py:3010-3023 | sanitizing a list of receipts keeps its totals, in cost and in every token field |
| Usage.AttemptsSumToTheLarger | src/unigrok_public/server.py:3082-3116 | the attempts of a result sum, in cost and in every token field, to the larger of its total and its earlier attempts |
| Recovery.ResultDict.AttachIncurred | src/unigrok_public/server.py:3149-3160 | appends sanitized receipts to a result's list |
| Recovery.ResultDict.AddTokens | src/unigrok_public/server.py:3175-3179 | adds the other side's counts field by field |
| Recovery.ResultDict.MergeIncurred | src/unigrok_public/server.py:3163-3193 | adds the receipts of failed attempts to a result, in place |
| Recovery.CallWithRecovery | src/unigrok_public/server.py:3505-3556 | one plane: a non-answer is retried once, and both answers' usage goes into the result or the error; which it is, is `RecoveryOutcomes.PlaneOutcome` |
| Recovery.RunUnified | src/unigrok_public/server.py:3558-3638 | the whole request: give up, stay, or go on to another plane or the local model with the error's receipts; its outcome is `RecoveryOutcomes.RequestOutcome` |
| RecoveryOutcomes.PlaneOutcome | src/unigrok_public/server.py:3505-3556 | with recovery on a plane delivers if and only if the first reply is an answer or the retry is, and what it delivers is an answer; two non-answers are an error of the class for failures; anything raised keeps its class |
| RecoveryOutcomes.RequestOutcome | src/unigrok_public/server.py:3558-3638 | the outcome of a request from its script alone; what a provider plane delivers with recovery on is never a non-answer |
| RecoveryOutcomes.TwoNonAnswersFail | src/unigrok_public/server.py:3539-3556 | two non-answers with nowhere to go fail the request |
| RecoveryOutcomes.MovesOnByPolicy | src/unigrok_public/server.py:3563-3578 | another plane or the local model is tried if and only if the first one failed, not by a bad request, and the policy allows to move; a spent budget needs an automatic plane or the local model |
| RecoveryOutcomes.BothRejectedInOrder | src/unigrok_public/server.py:3539-3552 | two rejected replies are listed in their order, under their stages |
| RecoveryOutcomes.RejectedComesFirst | src/unigrok_public/server.py:3519-3524 | a rejected reply is listed before what the retry's own error lists |
| RecoveryOutcomes.RetryListsTheRejected | src/unigrok_public/server.py:3539-3556 | an answered retry lists its own earlier attempts and then the rejected reply |
| RecoveryOutcomes.FailureComesFirst | src/unigrok_public/server.py:3579-3638 | after a failed plane its receipts stand before those of what followed |
| RecoveryOutcomes.RejectedSays | src/unigrok_public/server.py:3505-3556 | a rejected reply's receipt has its cost and its counts under its stage |
| RecoveryOutcomes.SanitizingKeepsLabels | src/unigrok_public/server.py:3010-3023 | sanitizing keeps stage, outcome and every count that is there |
| RecoveryOutcomes.CountsOfResult | src/unigrok_public/server.py:3026-3059 | a count of a result is its own, else the nested one; a total that neither has is the sum |
| RecoveryOutcomes.AmountsRead | src/unigrok_public/server.py:2996-3007 | amounts are read leniently: never negative, nothing where there is no number |
| RecoveryConserves.CombinedAmount | src/unigrok_public/server.py:3539-3556 | a successful retry carries both answers' cost and tokens, field by field, derived totals included |
| RecoveryConserves.MergedAmount | src/unigrok_public/server.py:3163-3193 | merging receipts into a result adds exactly their cost and tokens |
| RecoveryConserves.PlaneConserves | src/unigrok_public/server.py:3505-3556 | one plane reports the cost and the tokens that its calls billed if and only if no retry was cancelled after a first answer that billed some |
| RecoveryConserves.AfterErrorConserves | src/unigrok_public/server.py:3579-3638 | the alternate adds the error's receipts once, in its result or its error, for cost and for every token count |
| RecoveryConserves.RequestConserves | src/unigrok_public/server.py:3505-3638 | a request reports the sum of what its calls billed, each once, in cost and in every token count, if and only if no interruption followed a call that billed some |
| RecoveryConserves.CancelledRetryLosesTheFirstReply | src/unigrok_public/server.py:3519-3522 | a cancelled retry after an answer that cost a dollar reports nothing |
| RecoveryConserves.DeliveredAttemptsSumToTheBill | src/unigrok_public/server.py:3082-3116 | splitting a delivered result into attempts gives exactly what its calls billed, in cost and in every token count, provided no provider result lists earlier attempts worth more than its own total |
| Text.SplitUndoesJoin | src/unigrok_public/cabinet/layers.py:16-36 | splitting words joined by spaces gives the words back |
| Text.SplitAcross | src/unigrok_public/cabinet/layers.py:16-36 | white space separates words wherever it stands |
| Text.StripCuts | src/unigrok_public/cabinet/retrieve.py:202-204 | stripping cuts white space at the ends and nothing else |
| Text.SpacesAre | src/unigrok_public/cabinet/layers.py:16-36 | the 29 characters that separate words |
| Layers.EstRoundsUp | src/unigrok_public/cabinet/layers.py:16-20 | the estimate is the least whole number that is 1.3 times the words or more |
| Layers.ClipTokens | src/unigrok_public/cabinet/layers.py:23-36 | the loop, with both of its exits, keeps the longest prefix that fits |
| Layers.ClipIsLongestPrefix | src/unigrok_public/cabinet/layers.py:23-36 | what is kept is a prefix of the words, joined by blanks: at least one word, more only if the estimate fits, and one word more would not |
| Packing.Packer.Add | src/unigrok_public/cabinet/retrieve.py:197-223 | writes a text, whole or clipped to what is left, if and only if it is not blank and a word fits |
| Packing.PackBudget | src/unigrok_public/cabinet/retrieve.py:185-240 | the three loops are one greedy fill of the wish list: summaries, overviews, at most two bodies |
| Packing.ChunkIsLongest | src/unigrok_public/cabinet/retrieve.py:202-208 | a text that fits is written whole; of any other its longest prefix of words that fits, or its first word |
| PackingOrder.LayersGrow | src/unigrok_public/cabinet/retrieve.py:224-240 | what each layer asks for, in the order of the candidates: summary or else path, overview, body of a leaf, each stripped and not blank |
| PackingOrder.WishesAre | src/unigrok_public/cabinet/retrieve.py:224-240 | the wish list is the three layers one after the other, of the last only the first two |
| PackingOrder.FillIsPrefix | src/unigrok_public/cabinet/retrieve.py:185-240 | the hits are a prefix of the wish list within the budget, only the last one clipped, and to the longest prefix that fitted; a wish is left out only with less than two tokens left |
| PackingOrder.LayersInOrder | src/unigrok_public/cabinet/retrieve.py:224-240 | an overview only if every non-blank summary is written, a body only if every overview is too, never more than two bodies |
| Ranking.BlendStaysBetween | src/unigrok_public/cabinet/score.py:106-108 | a blended score lies between what it blends, for every alpha; where between is `Ranking.ChildScoreIs` |
| Ranking.ChildScoreIs | src/unigrok_public/cabinet/score.py:106-108 | a blended score is alpha of the way from the parent's score to the child's own; above one it is the own, below zero the parent's |
| Ranking.OnePlaceGives | src/unigrok_public/cabinet/score.py:37-52 | one place in a ranking gives a key one part in 60 and its rank |
| Ranking.RrfFuse | src/unigrok_public/cabinet/score.py:43-52 | the nested loops compute the fusion |
| Ranking.FusionSumsRankings | src/unigrok_public/cabinet/score.py:37-52 | each key gets the sum of what every ranking gives it, and exactly the ranked keys are there |
| Ranking.RankListsKeys | src/unigrok_public/cabinet/score.py:134-135 | the ranking lists exactly the keys, each once |
| Ranking.RankIsSorted | src/unigrok_public/cabinet/score.py:134-135 | a higher score comes first, equal scores by name |
| Walk.Score | src/unigrok_public/cabinet/retrieve.py:92-124 | the scoring loops compute the initial scores |
| Walk.Reasons | src/unigrok_public/cabinet/retrieve.py:126-131 | why each candidate is there, as text |
| Walk.PushDirectories | src/unigrok_public/cabinet/retrieve.py:133-136 | the heap starts with one entry for each directory |
| Walk.ExpandDirectory | src/unigrok_public/cabinet/retrieve.py:158-165 | the loop over the children blends their scores, pushes directories again and marks them, as `WalkOrder.ExpandAt` has it in numbers |
| Walk.ExpandNext | src/unigrok_public/cabinet/retrieve.py:148-173 | one expansion, with the convergence count |
| Walk.Traverse | src/unigrok_public/cabinet/retrieve.py:143-173 | the loop: at most 32 expansions, ended by an empty heap or three stable rounds |
| Walk.Walk | src/unigrok_public/cabinet/retrieve.py:84-182 | the whole walk, packed |
| WalkOrder.SortingIgnoresOrder | src/unigrok_public/cabinet/retrieve.py:94-100 | the stable sort of candidates with distinct URIs does not depend on their order |
| WalkOrder.ExpandAt | src/unigrok_public/cabinet/retrieve.py:158-165 | with distinct URIs four times a child's new score is three times its score before plus its parent's, each child once; nothing else moves |
| WalkOrder.ExpansionIgnoresOrder | src/unigrok_public/cabinet/retrieve.py:158-165 | so an expansion, its pushes included, does not depend on the order |
| WalkOrder.LoopIgnoresOrder | src/unigrok_public/cabinet/retrieve.py:143-173 | neither does the loop |
| WalkOrder.WalkIgnoresOrder | src/unigrok_public/cabinet/retrieve.py:84-182 | any two orderings of candidates with distinct URIs give the same hits, trajectory and token count |
| WalkRounds.StartsAs | src/unigrok_public/cabinet/retrieve.py:92-124 | a candidate starts at six tenths of what its places in the term and text rankings give and four tenths of its overlap, finished by the final score; the term ranking is spelled out |
| WalkRounds.ReasonsStartAs | src/unigrok_public/cabinet/retrieve.py:126-131 | its reasons: in the text ranking, a word of the query, both or neither |
| WalkRounds.HeapStartsAs | src/unigrok_public/cabinet/retrieve.py:133-136 | the heap starts with every directory once, under its initial score, and nothing else |
| WalkRounds.WalkIsRounds | src/unigrok_public/cabinet/retrieve.py:143-173 | a walk is a chain of rounds: each takes an entry that no other exceeds in score, the first by name among equals, moves its children by the arithmetic and pushes the directories among them once; it ends after the first round that leaves the eight best as they were for three rounds, after 32, or when the heap is empty |
| WalkRounds.TopIsBest | src/unigrok_public/cabinet/retrieve.py:166-166 | the eight best are in order, and every other candidate comes after them |
| WalkRounds.OrderedByScore | src/unigrok_public/cabinet/retrieve.py:175-177 | the packer is given every candidate once, by final score and then by name |
| WalkOrder.WalkIsBounded | src/unigrok_public/cabinet/retrieve.py:143-157 | a walk expands at most 32 entries, stale ones counted, and only directories |
| WalkOrder.ScoresStayInRange | src/unigrok_public/cabinet/retrieve.py:143-182 | every score of the walk stays within any bounds of the initial scores, stale entries included |
| Limiter.FailureLimiter.Events | src/unigrok_public/local_auth.py:67-79 | makes a peer most recently used, drops its old failures, and pushes out the least recently used peer when the table is full |
| Limiter.FailureLimiter.Record | src/unigrok_public/local_auth.py:81-85 | records a failure while there is room and refuses beyond the limit |
| Limiter.FailureLimiter.Clear | src/unigrok_public/local_auth.py:87-88 | forgets exactly one peer |
| Limiter.FailureLimiter.RetryAfterSeconds | src/unigrok_public/local_auth.py:90-94 | seconds until the oldest failure leaves the window, at least one |
| Limiter.UseTouchesOne | src/unigrok_public/local_auth.py:67-79 | a use makes the peer the last in order and drops its old failures; of the others only the first in order goes, and only for a new peer in a full table |
| Limiter.FailureIsRecorded | src/unigrok_public/local_auth.py:81-85 | a failure is added behind the recent ones unless they exceed the limit, and refused if and only if the limit was reached before it |
| Limiter.ClearedForgets | src/unigrok_public/local_auth.py:87-88 | clearing forgets one peer and nothing of any other |
| Limiter.RecentIsTheRest | src/unigrok_public/local_auth.py:76-79 | what is kept of a queue is all behind its longest beginning outside the window |
| Limiter.NothingToWaitFor | src/unigrok_public/local_auth.py:90-93 | without a recent failure one second is asked for |
| Limiter.RetryAfterIsEnough | src/unigrok_public/local_auth.py:90-94 | after that wait the oldest failure has left the window if and only if the time left was at most a second, a whole number of seconds, or at least a millisecond beyond one |
| Limiter.RetryAfterIsNotLong | src/unigrok_public/local_auth.py:90-94 | beyond its minimum of one second the wait is short by less than a millisecond and long by less than a second |
| Limiter.RetryAfterCanBeShort | src/unigrok_public/local_auth.py:90-94 | a second is asked for with 1.0005 left, and the failure is still in the window afterwards |
| LimiterRuns.RunKeepsInv | src/unigrok_public/local_auth.py:54-94 | every run keeps queues sorted, bounded and backed by real failures |
| LimiterRuns.FewFailuresPass | src/unigrok_public/local_auth.py:81-85 | for a peer neither cleared nor pushed out, no span shorter than the window holds more than failure_limit failures let pass; queues and table keep their bounds |
| LimiterRuns.RefusalIsBacked | src/unigrok_public/local_auth.py:81-85 | a refusal is backed by failure_limit + 1 of the peer's failures, all inside the window |
| LimiterRuns.LeastRecentlyUsedGoes | src/unigrok_public/local_auth.py:67-75 | a peer is pushed out only by a full table, and every peer that stays was used after it |
| Percent.DecodeUndoesEncode | src/unigrok_public/cabinet/uri.py:111-117 | decoding UTF-8, with replacement, undoes encoding |
| Percent.QuotedIsWellEncoded | src/unigrok_public/cabinet/uri.py:89-96 | quoted text is unreserved characters and upper-case escapes only |
| Percent.UnquoteUndoesQuote | src/unigrok_public/cabinet/uri.py:89-115 | unquoting undoes quoting, for every text |
| Percent.QuotedChar | src/unigrok_public/cabinet/uri.py:89-96 | a character stands for itself if and only if it is unreserved; any other becomes three characters for each of its bytes |
| Percent.UnquoteLeaves | src/unigrok_public/cabinet/uri.py:111-115 | text without a percent sign is left alone |
| Percent.UnquoteAscii | src/unigrok_public/cabinet/uri.py:111-115 | ASCII text is decoded as UTF-8 from the bytes of its escapes and characters at once |
| Percent.EscapeIsOneByte | src/unigrok_public/cabinet/uri.py:111-115 | an escape is one byte whatever the case of its digits; a percent sign without two of them stands for itself |
| Percent.MalformedBytesAreReplaced | src/unigrok_public/cabinet/uri.py:111-115 | stray, overlong and surrogate bytes are replaced one by one |
| CabinetUri.DirectoriesDiffer | src/unigrok_public/cabinet/uri.py:74-81 | two names never share a directory |
| CabinetUriAccepts.ScopeAccepted | src/unigrok_public/cabinet/uri.py:52-58 | a scope is accepted if and only if, stripped, it is 1 to 128 characters of names between slashes without NUL or backslash |
| CabinetUriAccepts.FsSegmentAccepted | src/unigrok_public/cabinet/uri.py:74-81 | so is a name of the file system, as it stands and of any length |
| CabinetUriAccepts.FormatAccepts | src/unigrok_public/cabinet/uri.py:84-98 | which triples are accepted, part by part, and what is reported of any other: the kind first, then the scope, then the path |
| CabinetUriAccepts.ParseAccepts | src/unigrok_public/cabinet/uri.py:101-119 | parsing gives u if and only if the text is the scheme and parts between slashes that stand for u, each decoded by itself and empty segments left out |
| CabinetUriAccepts.ChildAccepts | src/unigrok_public/cabinet/uri.py:40-46 | a child is made of exactly one name, behind the path it is given |
| CabinetUriAccepts.StripSlashesCuts | src/unigrok_public/cabinet/uri.py:28-46 | outer slashes are cut, all of them and nothing else |
| CabinetUriRoundTrip.ParseUndoesFormat | src/unigrok_public/cabinet/uri.py:84-119 | whatever is accepted comes back, without white space around scope and kind and slashes around the path |
| CabinetUriRoundTrip.FormatIsInjective | src/unigrok_public/cabinet/uri.py:84-98 | one URI never stands for two normalized triples |
| CabinetUriRoundTrip.FormatAcceptsCanonical | src/unigrok_public/cabinet/uri.py:84-98 | a triple is accepted if and only if what it means has a known kind, a valid scope, and valid segments within 512 bytes |
| CabinetUriRoundTrip.ParseIsCanonicalising | src/unigrok_public/cabinet/uri.py:101-119 | what is parsed can be formatted, and parses to itself again |
| CabinetUriRoundTrip.FormattedIsEncoded | src/unigrok_public/cabinet/uri.py:89-98 | behind the scheme a formatted URI is well-encoded parts joined by slashes |
| CabinetUriRoundTrip.ParentUndoesChild | src/unigrok_public/cabinet/uri.py:31-46 | the parent of a child is the directory it was made from, without outer slashes |
| Lease.BeforeIsEarlier | src/unigrok_public/mission/lease.py:17-19 | field by field order of valid instants is the order of their microseconds, leap years included |
| Lease.DaysBeforeYearAre | src/unigrok_public/mission/lease.py:17-19 | the days before a year in closed form |
| Lease.IsoReads | src/unigrok_public/mission/lease.py:17-26 | year, month and day stand where ISO 8601 has them, the clock behind the T |
| Lease.ClockReads | src/unigrok_public/mission/lease.py:17-26 | hour, minute and second read back, the microseconds stand behind a point and only when there are any |
| Lease.TextOrderIsTimeOrder | src/unigrok_public/mission/lease.py:22-26 | comparing two UTC instants as text is comparing them as times, with or without microseconds |
| Lease.ActiveUntilExpiry | src/unigrok_public/mission/lease.py:17-26 | a lease is active until exactly its time to live, of at least five seconds, has passed |

## Left out

* SQLite, SQL text, files, threads and retries inside a transaction: a transaction is one atomic step. The retention
  pruning of missions is not modelled, so a seal call always finds its row.
* The event and evidence ledgers, governor, shadow voters and the bodies of `verify_commit` and
  `should_terminal_fail`: the verdict and the decision to fail for good are arbitrary.
* Hashes of projections are assumed injective and not empty; redaction and size capping are arbitrary functions of a
  text. Redaction of a stored checkpoint is taken as the identity on numbers and closed labels.
* The wording of notices, gaps, continue tokens and artifact references in replies; the alternate stores without a
  heartbeat or artifact table; the fallback to an older row when a reload finds none.
* A quantum that ends in an error without receipts rewrites the billing of its checkpoint in normal form; the model leaves
  it as it is, which reads the same.
* Job rows written by other code never announce a completed mission with a payload; only a seal call and the mirror of
  its reply do.
* Floating point: money and scores are exact reals, `ceil(1.3 k)` is `ceil(13 k / 10)`, sums do not overflow to infinity,
  and trajectory scores are not rounded to six digits. `exp` and `log` in scores: the final score and the term
  overlap are arbitrary functions, so initial scores are arbitrary reals.
* Hosted caller budgets (`enforce_caller_budget`), breaker keys and the public breaker snapshot. A guarded call on a
  plane without a ledger is not modelled; each key has its own breaker.
* A daily ledger whose limit changes during the run, whose lease tokens repeat, or in which a reservation commits for a
  day that a later one has already pruned (eight days late). Telemetry and corrupted rows are inputs of one
  reservation, not of runs.
* Cost of a provider reply whose settlement in the ledger raises: `_call` then raises a bare error, and only what
  `_call` returns or its error carries is counted as billed.
* Result fields other than usage, receipts of a request (`_receipt`), the bound on continues of the local plane, and
  direct local serving.
* The array layout of `heapq` and the stored order of dictionaries: a heap is the multiset of its entries.
* A clock that goes back between calls of the limiter.
* Lone surrogates: a character is a Unicode scalar value.
* The floating-point timestamp arithmetic of `lease_expiry_iso`, years outside 1 to 9999, and other time zones.
- Limiter.FailureLimiter.Events: requires a peer limit of at least one, as the module's constant is; with a limit of
  zero an empty table is at its limit and popping from it raises `KeyError`. The same holds for Record and
  RetryAfterSeconds.
- RecoveryConserves.RequestConserves: for the total token count, an error of a call that already carries receipts must
  report a total in each receipt that reports a part, as every receipt made here does; cost and the other counts need
  no such condition.
- MissionStore.Holds: an absent lease token and an empty one are the same, because no caller passes an empty token.
