# A verified model of the insight, rate-limit, recurring-rule and chat cores

The project models the parts of the system that carry state, arithmetic or concurrency, and
proves what they promise over all inputs and all runs.

* **Insight delivery** (`InsightRows`, `InsightRepository`, `Outbox`, `Queueing`, `InsightWorker`,
  `Delivery`, `DeliveryInvariant`, `DeliveryTheorems`, `DeliveryPaths`, `DeliveryLiveness`,
  `OutboxGuarantees`, `InsightOutcomes`). A user's request or the reaper puts an insight in QUEUED and its event in the
  outbox in one transaction; pollers relay the event to a topic; a consumer deduplicates, retries or
  parks it; a worker claims the insight under a lease, builds, calls the AI and completes or fails it;
  the reaper requeues or exhausts expired leases. `Delivery` is one state machine over all of this, with
  a step per transaction or visible effect and with crashes, redeliveries and key expiry at any time.
  The safety theorems hold over every run from the empty deployment, the liveness theorem over every
  fair infinite one. The imperative code is tied to it: the repository's transactions and the poller's
  attempts are its steps, and the event handler makes exactly the moves that the outcomes of its foreign
  calls and the states it finds determine, with any steps of the others between them.
* **GCRA rate limiting** (`Arith`, `Gcra`, `RateLimiter`): the Lua script, the policy table and the
  headers, against a token bucket over the reals that never expires.
* **Recurring rules** (`Calendar`, `NextFireDate`, `RuleBatches`, `FireDueRules`): civil dates with a
  proved day numbering, the fire-date functions against the set of dates a schedule means, and the
  batched run.
* **Streaming chat** (`Json`, `Sse`, `ChatTokens`): the server's frame printer against the client's
  incremental parser (section 9.2.6 of the WHATWG HTML standard, section 7 of RFC 8259), and token
  accounting over model rounds cut off at any point.
* **Index and aggregate agreement** (`SessionStore`, `BudgetReader`, `Aggregation`): the session index
  against the session keys under expiry, one range scan against single-month scans, and two
  independent per-currency aggregators over the same rows.

`Wrappers` and `Collections` hold what several modules share.

Automatic induction is switched off on every lemma, so each inductive proof shows its own recursion.

Assumptions behind the delivery model: every unit of work is atomic, and `get_by_id` followed by
`save` in one unit of work is one such unit although it takes no row lock; generated ids are fresh; a
claimed lease and the retry count are stored, as the repository port says (the ORM mapping leaves both
columns out); the topic is an append-only log with an acknowledgement per message, and an
unacknowledged message may be delivered any number of times, also concurrently. The recurring model
assumes that a saved rule is visible to the next fetch, which the worker's `autoflush=False` session
does not give by itself, and one scheduler at a time. The rate limiter assumes one nondecreasing clock
shared with Redis and, like the session store, that a key is readable up to and including its expiry.

Where the code and its documentation differ, the model follows the code: docs/DATA_FLOW.md:143 and
docs/ARCHITECTURE.md:245 have a request save a PENDING insight, but the code marks it QUEUED before it is
saved.

Properties that one might expect and that fail, each with its exact condition:

* "At most rate + burst per minute" fails for rates whose floored interval is too short
  (`Gcra.MinuteBoundIff`, `Gcra.SevenThousandIsTooFast`); every rate in the policy table is fine.
* A SENT outbox row can turn FAILED again (`OutboxGuarantees.SentIsLostIff`,
  `OutboxGuarantees.SentIsFinalIff`): when several pollers run (`OutboxGuarantees.TwoPollersCanLoseSent`),
  and with one when a commit is applied but reported as failed (`OutboxGuarantees.LostCommitCanLoseSent`).
* Several pollers can publish a row more than max_retries times, by exactly one for each further poller
  (`OutboxGuarantees.PublishedAtMost`, `OutboxGuarantees.PublishedAtMostIsAttained`).
* A run does not always try every due rule (`RuleBatches.AllAreTriedIff`): fifty failed rules can hide the
  others (`RuleBatches.FailuresHideRulesIff`, `RuleBatches.FailuresStop`), and a hundred batches may not be
  enough (`RuleBatches.CapIsFarIff`).
* Creating a rule does not check its first date against its end (`FireDueRules.CreatedEndDateKeptIff`,
  `FireDueRules.CreationAcceptsEndBeforeFirst`).
* A `data: null` chunk makes the client's parser raise, and the events that share its read are lost, so
  chunking matters for such a stream (`Sse.ChunkingIsIrrelevantIff`, `Sse.NullStreamLosesItsRead`); the
  server prints none (`Sse.StreamArrivesIntact`).
* `revoke_all` reads the ids and drops them in two round trips, so a login in between escapes it
  (`SessionStore.LateDropKeepsInvIff`, `SessionStore.LoginDuringRevokeAllEscapes`); `list_active` shows a
  session for the instant of its expiry, when `get` no longer does (`SessionStore.ListedResolvesIff`,
  `SessionStore.ListedAtItsExpiry`).
* The two aggregators differ on rows that are neither income nor expense
  (`Aggregation.AggregatorsAgreeIff`).

## Model

| member | source | states |
|---|---|---|
| InsightRows.TransactionsAreLegal | app/outbound/adapters/sqla/insights/insight_repository.py:43-154 | claiming, completing, failing and reaping move every row only along QUEUED to PROCESSING, PROCESSING back to QUEUED with one more retry, or PROCESSING to a terminal status; they delete nothing and never touch a terminal row |
| InsightRows.LegalMoveSpends | app/domain/entities/insight.py:30-72 | the measure (retries left, status rank) strictly decreases at every status change and never below zero |
| InsightRows.ReapClearsExpired | app/outbound/adapters/sqla/insights/insight_repository.py:100-152 | after a tick no lease is expired; exactly the requeued rows gained a retry, exactly the exhausted ones became FAILED, all others are unchanged |
| InsightRows.ReapMeans | app/outbound/adapters/sqla/insights/insight_repository.py:100-152 | in plain fields: a lease that has not ended and a row without one stay; an ended one costs a retry, or the insight when none is left |
| InsightRepository.Insight.MarkQueued | app/domain/entities/insight.py:30-34 | succeeds from PENDING only and then changes the status alone |
| InsightRepository.Insight.MarkProcessing | app/domain/entities/insight.py:36-42 | succeeds from QUEUED only; a given deadline is stored |
| InsightRepository.Insight.MarkCompleted | app/domain/entities/insight.py:44-65 | succeeds from PROCESSING with a score of 1 to 10 only, and then stores the answer, its context quality, its time and the budget snapshot |
| InsightRepository.Insight.MarkFailed | app/domain/entities/insight.py:67-72 | succeeds from PROCESSING only and then stores the error |
| InsightRepository.Repository.ClaimForProcessing | app/outbound/adapters/sqla/insights/insight_repository.py:43-65 | a missing or foreign row is not found, any status but QUEUED is refused, otherwise exactly that row becomes PROCESSING under the deadline |
| InsightRepository.Repository.CompleteInsight | app/application/insights/use_cases/_process_insight_steps.py:203-215 | succeeds exactly for the owner's PROCESSING row and a score of 1 to 10, which then holds the content; otherwise, and elsewhere, nothing changes |
| InsightRepository.Repository.CompleteWithSnapshot | app/application/insights/use_cases/_process_insight_steps.py:193-215 | the whole transaction: the completed row holds this answer, quality and time beside exactly the aggregated snapshot of the period's rows; no other row changes |
| InsightRepository.Repository.RecordInsightFailure | app/application/insights/use_cases/_process_insight_steps.py:218-240 | fails a visible PROCESSING row; every other case is swallowed and changes nothing |
| InsightRepository.SecondPassSees | app/outbound/adapters/sqla/insights/insight_repository.py:133-149 | the second UPDATE sees exactly the rows that had no retries left before the first one ran |
| InsightRepository.Repository.ReapExpiredProcessing | app/outbound/adapters/sqla/insights/insight_repository.py:100-154 | the two UPDATE passes amount to one simultaneous transition, stated row by row in plain fields; the returned set and count are the requeued and exhausted rows; a retry cap below 1 is refused |
| Queueing.OutboxRepository.Append | app/outbound/adapters/sqla/common/outbox_repository.py:35-50 | inserts one PENDING row under a fresh id and touches no other |
| Queueing.RequestInsight | app/application/insights/use_cases/request_insight.py:53-99 | refused exactly when the month's quota is used up or, after that, for too few transactions, and then nothing is written; otherwise the QUEUED row and its PENDING event appear together, exactly as the protocol's request step |
| Queueing.EmitRequeued | app/main/scheduler/main.py:222-237 | one fresh PENDING event per requeued insight, addressed to it and its owner, and no other change to the outbox |
| Queueing.ReaperTick | app/main/scheduler/main.py:208-250 | in plain fields, which leases end in a retry with a fresh event, which in a failure and which are left alone; and both stores end up as the protocol's reaper step leaves them |
| Outbox.RelayTableAt | app/outbound/outbox/poller.py:73-76 | in a batch without repeats every row takes exactly its own relay step and no other row moves |
| Outbox.OutboxPoller.SnapshotPendingIds | app/outbound/outbox/poller.py:81-89 | distinct PENDING ids, a full batch or all there are |
| Outbox.OutboxPoller.RecordFailure | app/outbound/outbox/poller.py:143-164 | counts the failure whatever the row's status is by now, and quarantines the row when the retries are used up |
| Outbox.OutboxPoller.MarkFailed | app/outbound/outbox/poller.py:166-179 | the row becomes FAILED at this time, with the count if one is given |
| Outbox.OutboxPoller.ProcessOne | app/outbound/outbox/poller.py:91-132 | exactly this row changes, as each outcome of the attempt says in plain fields, the topic grows by its message exactly if it was published, and the answer says whether it was sent; a row locked elsewhere is skipped |
| Outbox.OutboxPoller.RunOnce | app/outbound/outbox/poller.py:68-79 | one poll: every row of the snapshot ends as its own attempt says, no other row moves, and the counts of sent rows and published messages are exact |
| Outbox.OutboxAdmin.RequeueFailed | app/outbound/adapters/sqla/common/outbox_admin.py:22-69 | replays matching FAILED rows that nobody else holds, oldest failure first and unknown ones last, at most the limit, as if new; a dry run changes nothing |
| Delivery.Source | app/main/scheduler/main.py:222-237 | of fresh events emitted one per insight, each belongs to exactly one insight |
| DeliveryInvariant.StepKeepsTraceable | app/inbound/messaging/insight_consumer.py:44-96 | no single step of any process loses the event a QUEUED insight waits for |
| DeliveryInvariant.ClaimSettles | app/application/insights/use_cases/process_insight.py:71-91 | after a claim, successful or refused, nothing waits on the delivered event any more |
| DeliveryInvariant.OldEventsStaySettled | app/main/scheduler/main.py:219-237 | an event that nothing waits on, or that is in the DLQ, stays so: a requeue always waits on a fresh event |
| DeliveryInvariant.StepMovesLegally | app/outbound/adapters/sqla/insights/insight_repository.py:43-154 | every step of every process moves every insight legally |
| DeliveryInvariant.StepKeepsInv | app/inbound/messaging/insight_consumer.py:44-96 | the whole invariant (references resolve, marks and acknowledgements are justified, nothing stranded, SENT was published, claims counted) is inductive |
| DeliveryTheorems.RunKeepsInv | app/main/scheduler/main.py:208-250 | the invariant holds in every reachable state |
| DeliveryTheorems.NoInsightStranded | app/application/insights/use_cases/request_insight.py:82-98 | in every reachable state a QUEUED insight's latest event is its own and is an unsent outbox row, an unacknowledged unmarked message, or a dead letter |
| DeliveryTheorems.ClaimsCountRetries | app/application/insights/use_cases/process_insight.py:67-153 | claims equal the retry count while QUEUED and one more afterwards; retries are capped; the AI port is called at most once per claim and at most max_retries + 1 times |
| DeliveryTheorems.RunMovesLegally | app/outbound/adapters/sqla/insights/insight_repository.py:55-62 | from each state of a run to the next every insight stays and moves legally |
| DeliveryTheorems.InsightsStay | app/outbound/adapters/sqla/insights/insight_repository.py:26-30 | over a run no insight disappears |
| DeliveryTheorems.TerminalIsFinal | app/domain/entities/insight.py:52-72 | COMPLETED and FAILED are absorbing: no duplicate event, late worker, late failure record or tick changes any field |
| DeliveryTheorems.RowIsBudgeted | app/outbound/adapters/sqla/insights/insight_repository.py:100-152 | in every reachable state the retry count and the remaining budget are within their bounds |
| DeliveryTheorems.ChangesAreBounded | app/outbound/adapters/sqla/insights/insight_repository.py:43-154 | over a whole life, in any run, a row changes at most 2 * max_retries + 2 times |
| DeliveryTheorems.ReaperIsNeverBlocked | app/main/scheduler/main.py:208-250 | in every state of the invariant a tick is possible |
| DeliveryTheorems.ReaperRecoversExpired | app/main/scheduler/main.py:219-237 | a tick requeues every expired insight under a fresh PENDING event while retries are left, and fails it otherwise |
| DeliveryTheorems.TickMeans | app/main/scheduler/main.py:208-250 | the protocol's tick in plain fields, insight by insight, with the event it appends |
| DeliveryTheorems.MoveOnRow | app/application/insights/use_cases/_process_insight_steps.py:60-240 | all that any move of any handler does to an insight, in plain fields |
| DeliveryTheorems.OutcomesAreExplained | app/domain/entities/insight.py:44-72 | over every run a COMPLETED insight holds content that an AI call generated for it, with a score of 1 to 10, and a FAILED one an error |
| OutboxGuarantees.ProcessOneIsPollSteps | app/outbound/outbox/poller.py:91-132 | the poller's attempt on a row is exactly the protocol's poll steps, for a commit, a rollback with or without delivery, and a failure before the lock |
| OutboxGuarantees.PollMeans | app/outbound/outbox/poller.py:91-179 | the outbox and the topic after each poll step, in plain fields |
| OutboxGuarantees.ReplayIsStep | app/outbound/adapters/sqla/common/outbox_admin.py:57-66 | what the admin's replay writes is an enabled replay step of the protocol |
| OutboxGuarantees.PendingExits | app/outbound/outbox/poller.py:91-132 | a PENDING row leaves only into SENT, with its message put on the topic by that step, or into FAILED, for want of a topic or of retries |
| OutboxGuarantees.SentIsLostIff | app/outbound/outbox/poller.py:143-162 | SENT changes exactly when a poller that still owes a failure record writes it and uses up the retries |
| OutboxGuarantees.SentIsFinalIff | app/outbound/outbox/poller.py:120-162 | over any run of any pollers a SENT row stays SENT until it is purged exactly if no failure record that uses up its retries is written to it |
| OutboxGuarantees.TwoPollersCanLoseSent | app/outbound/outbox/poller.py:143-162 | the three-step interleaving of two pollers that turns a SENT row FAILED |
| OutboxGuarantees.LostCommitCanLoseSent | app/outbound/outbox/poller.py:120-132 | with one poller, a commit that is applied but reported as failed lets the poller's own failure record turn its SENT row FAILED when the retries are used up |
| OutboxGuarantees.LostRecordsRepublish | app/outbound/outbox/poller.py:163-164 | a poller that publishes, rolls back and loses its record leaves the row as it was, one publication later |
| OutboxGuarantees.SinceReplayCountsTopic | app/outbound/adapters/sqla/common/outbox_admin.py:57-66 | the publication counter moves exactly with the topic and only a replay of the row resets it |
| OutboxGuarantees.StepKeepsPublished | app/outbound/outbox/poller.py:91-164 | with any pollers that record their failures, publications of a PENDING row never exceed the counted failures plus the records still owed for it, through rollbacks, lost commits, replays and everybody else's steps |
| OutboxGuarantees.PublishedAtMost | app/outbound/outbox/poller.py:91-164 | with n such pollers a row is published at most max_retries + n - 1 times between replays (a limit below one acts as one) |
| OutboxGuarantees.PublishedAtMostIsAttained | app/outbound/outbox/poller.py:91-164 | for any n pollers and any retry limit some run does publish a row that often |
| OutboxGuarantees.PublishedAtMostMaxRetries | app/outbound/outbox/poller.py:91-164 | with one poller whose failure records succeed a row is published at most max_retries times between replays |
| OutboxGuarantees.StepKeepsSoloInv | app/outbound/outbox/poller.py:91-164 | one poller without lost commits owes a failure record only for a row that is still PENDING |
| OutboxGuarantees.SoloSentIsFinal | app/outbound/outbox/poller.py:120-126 | with one poller without lost commits SENT is final until the row is purged |
| DeliveryPaths.PerformsOnlyAdds | app/inbound/messaging/insight_consumer.py:87-96 | along every path messages, dead letters and acknowledgements are never taken back |
| DeliveryPaths.UndeliveredCanBeClaimed | app/outbound/adapters/sqla/insights/insight_repository.py:43-63 | from every state of the invariant, a waiting undelivered event has a path to a claim of its insight |
| DeliveryPaths.QueuedCanBeClaimed | app/outbound/adapters/sqla/common/outbox_admin.py:22-67 | progress: unless its event was dead-lettered, every QUEUED insight has a path of replaying, relaying and delivering that ends in its claim |
| DeliveryLiveness.QueuedLeadsToClaim | app/inbound/messaging/insight_consumer.py:44-96 | liveness: in every infinite behaviour with fair pollers, a fair consumer and replays of quarantined rows, a QUEUED insight is claimed in the end unless its event is dead-lettered |
| DeliveryLiveness.ClaimsIsAClaim | app/outbound/adapters/sqla/insights/insight_repository.py:43-63 | the claiming step of that theorem puts the insight in PROCESSING under its deadline |
| DeliveryLiveness.QuietRunIsFair | app/main/scheduler/main.py:208-250 | every finite run that comes to rest goes on for ever as such a behaviour |
| DeliveryLiveness.FairLifeExists | app/inbound/messaging/insight_consumer.py:44-96 | such a behaviour with a QUEUED insight exists: requested, relayed, claimed, failed for want of data, marked, acknowledged |
| InsightWorker.RunTransaction | app/application/insights/use_cases/_process_insight_steps.py:60-240 | the transaction of a handler's move, run by the repository's own methods, is the protocol's table update |
| InsightWorker.Worker.Complete | app/application/insights/use_cases/process_insight.py:125-153 | the completion and its failure path: the moves, whether it raises, and that its acceptance is decided by the row it finds |
| InsightWorker.Worker.BuildAndGenerate | app/application/insights/use_cases/process_insight.py:94-153 | the try body after a claim makes exactly the moves its outcomes determine and raises exactly then |
| InsightWorker.Worker.ProcessInsight | app/application/insights/use_cases/process_insight.py:67-153 | the moves of the use case and whether it raises are determined by the outcomes of its foreign calls, by whether the claim was possible where it was tried, and by whether the completion was |
| InsightWorker.Worker.ParkOrRaise | app/inbound/messaging/insight_consumer.py:78-96 | the failure is counted; the event is dead-lettered and marked exactly if the count reached the limit and no call raised; otherwise the handler ends without acknowledging |
| InsightWorker.Worker.Settle | app/inbound/messaging/insight_consumer.py:76-96 | the mark, the except branch and the acknowledgement: exactly these moves, acknowledged exactly if marked or parked |
| InsightWorker.Worker.HandleInsightEvent | app/inbound/messaging/insight_consumer.py:44-96 | a marked event is acknowledged at once; otherwise the whole sequence of moves is determined as above; an acknowledged message is one whose event nothing waits on, or which is in the DLQ; an unacknowledged one is still on the topic; acknowledged exactly if nothing raised, no data included, and the mark held, or the failures reached the limit and the event was parked |
| InsightOutcomes.HandledAlone | app/inbound/messaging/insight_consumer.py:44-96 | an undisturbed handling for every way its calls can turn out: a claimable insight ends COMPLETED with the answer or FAILED with what went wrong, without data included; the event is marked and acknowledged, or its failure counted, and parked exactly at the last one allowed |
| InsightOutcomes.UseCaseMeans | app/application/insights/use_cases/_process_insight_steps.py:60-240 | the row after an undisturbed use case, in plain fields: the answer, the failure (no data included) or, unrecorded, the lease; and when it raises |
| InsightOutcomes.PlayedPerforms | app/inbound/messaging/insight_consumer.py:44-96 | such a handling is a path of the protocol |
| Gcra.ExpiryIsInvisible | app/inbound/http/middleware/rate_limit.py:34-36 | a key that reached its time to live answers exactly as a fresh client's and as one that never expired |
| Gcra.LiveWhileThrottling | app/inbound/http/middleware/rate_limit.py:46-47 | a key the script wrote is alive as long as it can throttle anybody |
| Gcra.StepAgrees | app/inbound/http/middleware/rate_limit.py:37-54 | one decision equals one token-bucket decision and keeps the two states in correspondence |
| Gcra.ScriptIsTokenBucket | app/inbound/http/middleware/rate_limit.py:37-54 | on every request sequence the expiring script decides as a full, never-expiring bucket of capacity burst refilled continuously |
| Gcra.BurstLaw | app/inbound/http/middleware/rate_limit.py:42-47 | n accepted requests from t1 to tn satisfy n * interval <= burst_ms + (tn - t1), for every window of every run |
| Gcra.MinuteBound | app/inbound/http/middleware/rate_limit.py:106-114 | a minute lets at most burst and the minute's intervals through |
| Gcra.BoundIsAttained | app/inbound/http/middleware/rate_limit.py:42-47 | that bound is reached by an explicit request sequence |
| Gcra.MinuteBoundIff | app/inbound/http/middleware/rate_limit.py:106-107 | rate + burst per minute holds exactly for the rates the floored interval reproduces, which include every divisor of 60000 |
| Gcra.SevenThousandIsTooFast | app/inbound/http/middleware/rate_limit.py:106-107 | a rate in range that breaks the bound for every burst |
| Gcra.RemainingIsExact | app/inbound/http/middleware/rate_limit.py:48-50 | after an answer reporting `remaining`, accepted or denied, exactly that many more requests at the same instant are accepted |
| Gcra.RetryAfterIsExact | app/inbound/http/middleware/rate_limit.py:52-53 | after a denial the next accept comes exactly at retry_after_ms, and the rounded header is the least whole number of seconds that is not too short |
| Gcra.ResetIsExact | app/inbound/http/middleware/rate_limit.py:50 | accepted or denied, the key stops mattering exactly when `resetMs` has passed |
| Gcra.AcceptedNeedNotWait | app/inbound/http/middleware/rate_limit.py:52-53 | only a denied request is told to wait |
| Gcra.CeilIsLeast | app/inbound/http/middleware/rate_limit.py:136 | the header's seconds are the least whole number, at least one, that is not too short |
| Gcra.LimitMeans | app/inbound/http/middleware/rate_limit.py:106-107 | a policy's interval is the longest that still gives its rate |
| RateLimiter.FirstMatchWins | app/inbound/http/middleware/rate_limit_policy.py:35-44 | the policy is the first matching entry's, the default when none matches |
| RateLimiter.PoliciesInRange | app/inbound/http/middleware/rate_limit_policy.py:17-27 | every policy's rate divides the minute and its burst is at least one |
| RateLimiter.TableIsUnambiguous | app/inbound/http/middleware/rate_limit_policy.py:17-46 | the order of the table does not matter: whichever entry matches, its policy applies |
| RateLimiter.MatchMeans | app/inbound/http/middleware/rate_limit_policy.py:35-46 | an entry matches by prefix and, if it has one, by method in upper case |
| RateLimiter.EveryEndpointIsBounded | app/inbound/http/middleware/rate_limit.py:106-114 | on every endpoint any minute lets at most rate + burst through |
| RateLimiter.Middleware.Script | app/inbound/http/middleware/rate_limit.py:37-55 | the script, statement by statement, is the decision function on its own key and touches no other |
| RateLimiter.Middleware.Call | app/inbound/http/middleware/rate_limit.py:86-149 | skipped paths and Redis outages pass, unidentified callers are refused, all others get the decision and its rounded headers |
| Calendar.DaysBeforeYearClosed | app/application/recurring/next_fire_date.py:18 | the year lengths add up to the closed Gregorian formula |
| Calendar.OrderIsDayOrder | app/application/recurring/next_fire_date.py:25 | comparing dates is comparing day numbers |
| Calendar.FromDayNumber | app/application/recurring/next_fire_date.py:18 | every positive day number is that of a valid date |
| Calendar.DayNumberRoundTrip | app/application/recurring/next_fire_date.py:18 | dates and day numbers are in bijection |
| Calendar.MonthLengths | app/application/recurring/next_fire_date.py:23 | the length of every month, and the leap years |
| Calendar.DayOne | app/application/recurring/next_fire_date.py:17 | 1 January of year 1 is day 1, a Monday |
| Calendar.WeekdaysGoRound | app/application/recurring/next_fire_date.py:17 | the day after has the weekday after |
| Calendar.KnownDays | app/application/recurring/next_fire_date.py:17-24 | two dates with their known numbers and weekdays |
| Calendar.AddDays | app/application/recurring/next_fire_date.py:58 | adding n days gives the valid date n day numbers on |
| NextFireDate.FirstIsLeast | app/application/recurring/next_fire_date.py:7-47 | a first date exists exactly for complete schedules, and is then the least scheduled date not before the start |
| NextFireDate.OnScheduleMeans | app/application/recurring/next_fire_date.py:14-45 | the schedule in plain numbers: the weekday, or the day of every month or of one month a year, and the last day of a month too short for it |
| NextFireDate.AdvanceIsNext | app/application/recurring/next_fire_date.py:50-79 | from a scheduled date, advancing gives the least scheduled date after it |
| NextFireDate.AdvanceIsNextIff | app/application/recurring/next_fire_date.py:50-79 | from any date, it does so exactly when the date's own period has already had its turn |
| NextFireDate.AdvanceIsFirstFromTomorrow | app/application/recurring/next_fire_date.py:7-79 | advancing from a scheduled date equals starting afresh the day after |
| NextFireDate.AdvancingEnumerates | app/application/recurring/next_fire_date.py:50-79 | iterated advancing reaches exactly the scheduled dates from the first on: no gap, no drift |
| NextFireDate.CatchUp | app/application/recurring/use_cases/fire_due_rules.py:67-79 | the loop ends past today; from a due scheduled date it ends at the first scheduled date after today |
| NextFireDate.CatchUpIsFirstFromTomorrow | app/application/recurring/use_cases/fire_due_rules.py:67-79 | however many periods were missed, catching up equals compute_first_fire_date of tomorrow |
| FireDueRules.CreatedRulesAreOnSchedule | app/application/recurring/use_cases/create_recurring_rule.py:49-97 | creation refuses exactly the schedules outside the ranges; a created rule is active on its schedule's first date |
| FireDueRules.AcceptedSchedules | app/application/recurring/use_cases/create_recurring_rule.py:50-97 | exactly which schedules creation accepts, and that the rule stands on the earliest scheduled day from the start on |
| FireDueRules.FiredStandsTomorrow | app/application/recurring/use_cases/fire_due_rules.py:67-85 | a fired rule stands on the first scheduled date after today, is no longer due, and is paused exactly when that lies past its end |
| FireDueRules.FiredInDayNumbers | app/application/recurring/use_cases/fire_due_rules.py:67-85 | in day numbers: a fired rule stands on the earliest scheduled day after today and is paused exactly if that is past its end |
| FireDueRules.MovePast | app/application/recurring/use_cases/fire_due_rules.py:67-82 | the loop and the pause compute that rule |
| FireDueRules.Runner.FetchDue | app/outbound/adapters/sqla/recurring/recurring_rule_repository.py:55-66 | distinct active rules whose date is today or earlier, up to the limit; fewer only if they are all |
| FireDueRules.Runner.Fire | app/application/recurring/use_cases/fire_due_rules.py:49-85 | a failed transaction leaves the rule alone; otherwise one transaction dated when the rule was due, and the moved rule |
| FireDueRules.Runner.RunBatch | app/application/recurring/use_cases/fire_due_rules.py:31-46 | fetches a batch, fires what is new in it and not raising, keeps the failed ones apart; drained exactly if nothing of the batch is new |
| FireDueRules.Runner.Drain | app/application/recurring/use_cases/fire_due_rules.py:29-47 | the loop is a run of the allowed kind: working batches up to the cap, or fewer and then a fetch with nothing new |
| FireDueRules.Runner.Run | app/application/recurring/use_cases/fire_due_rules.py:29-47 | in day numbers: a fired rule was active with a date not after today, gets one transaction of that date and moves past today, the others stay; exactly the tried raising rules failed; everything due was tried, and the cap not reached, whenever the numbers of due and raising rules say so beforehand, and then no active rule but the failed ones is due |
| RuleBatches.CapIsFarIff | app/application/recurring/use_cases/fire_due_rules.py:31-47 | whatever the query returns, no run reaches the cap exactly if at most 50 + 98 * max(1, 50 - f) rules are due, f of them raising |
| RuleBatches.AllAreTriedIff | app/application/recurring/use_cases/fire_due_rules.py:29-47 | whatever the query returns, every run tries every due rule exactly if at most 50 are due, or f < 50 of them raise and at most 50 + 99 * (50 - f) are due |
| RuleBatches.FailuresHideRulesIff | app/application/recurring/use_cases/fire_due_rules.py:32-37 | some run stops before the cap with due rules untried exactly if more than 50 are due and at least 50 of them raise |
| RuleBatches.FailuresStop | app/application/recurring/use_cases/fire_due_rules.py:32-37 | with 50 raising rules a run may stop at its second fetch with nothing fired |
| RuleBatches.FetchHidesRulesIff | app/outbound/adapters/sqla/recurring/recurring_rule_repository.py:55-64 | a single fetch can hold nothing but failed rules, while others are due, exactly when at least 50 have failed |
| FireDueRules.HistoryIsSound | app/application/recurring/use_cases/fire_due_rules.py:49-85 | over any runs a rule's transactions have strictly increasing scheduled dates, each at most its run's day and the end date |
| FireDueRules.RunIsOneDay | app/application/recurring/use_cases/fire_due_rules.py:29-85 | what one run does to one rule is one day of that rule's history |
| FireDueRules.RunAll | app/application/recurring/use_cases/fire_due_rules.py:29-85 | after any number of runs every rule stands where its history puts it and its transactions are exactly its history's |
| FireDueRules.EndDateKeptIff | app/application/recurring/use_cases/fire_due_rules.py:81-82 | a rule's end date is kept in every future exactly when it does not already stand past it |
| FireDueRules.CreatedEndDateKeptIff | app/application/recurring/use_cases/create_recurring_rule.py:49-75 | from the arguments of creation: the end date is kept in every future exactly when the schedule's first date from the start on is not past it |
| FireDueRules.CreationAcceptsEndBeforeFirst | app/application/recurring/use_cases/create_recurring_rule.py:49-75 | arguments that creation accepts although the first date is past the end |
| Json.EscapeRoundTrip | app/inbound/http/controllers/chat/stream.py:41 | reading back an escaped string gives the string, for every character including those written as surrogate pairs |
| Json.ShortEscapes | app/inbound/http/controllers/chat/stream.py:36-64 | which characters have an escape of their own, and which stand for themselves |
| Json.LongEscapes | app/inbound/http/controllers/chat/stream.py:36-64 | every other character is four hexadecimal digits or a surrogate pair |
| Json.DumpsMeans | app/inbound/http/controllers/chat/stream.py:36-64 | the braces, quotes and separators of an object |
| Json.DumpsRoundTrip | app/inbound/http/controllers/chat/stream.py:41-43 | reading back a dumped dictionary of strings gives the dictionary |
| Json.DumpsIsOneLine | app/inbound/http/controllers/chat/stream.py:41-43 | dumped text holds no line break or other control character, whatever the strings |
| Sse.SplitAppend | web/src/features/chat/lib/parseSSE.ts:7-8 | splitting a longer buffer is splitting its front and then the remainder with the new text |
| Sse.RemainderIsOpen | web/src/features/chat/lib/parseSSE.ts:8 | a remainder holds no blank line |
| Sse.SplitMeans | web/src/features/chat/lib/parseSSE.ts:6-8 | splitting cuts at every blank line from the left and loses nothing |
| Sse.TrimMeans | web/src/features/chat/lib/parseSSE.ts:11-14 | trimming takes away exactly the white space at both ends |
| Sse.ChunkMeans | web/src/features/chat/lib/parseSSE.ts:10-24 | which chunks are read, what of them, and which raise |
| Sse.ToEventMeans | web/src/features/chat/lib/parseSSE.ts:23-37 | the event of each type with its defaults; any other type gives none |
| Sse.ParseSSEBuffer | web/src/features/chat/lib/parseSSE.ts:6-41 | the loop yields the events of the closed chunks in order and the remainder, or raises exactly if some chunk's JSON is null |
| Sse.ReadLoop | web/src/features/chat/hooks/useStreamChat.ts:144-163 | the loop dispatches and raises exactly as feeding the pieces and the flushed rest one by one through the remainder |
| Sse.FeedIsParse | web/src/features/chat/hooks/useStreamChat.ts:147-156 | for every chunking: the events and remainder of one parse of the whole stream if no chunk raises, and an exception otherwise |
| Sse.DispatchedAreFront | web/src/features/chat/hooks/useStreamChat.ts:147-156 | what a reader dispatches before it raises is a front part of the events before the first raising chunk |
| Sse.ChunkingIsIrrelevantIff | web/src/features/chat/lib/parseSSE.ts:16-24 | all chunkings of a stream dispatch the same events exactly if no chunk raises or nothing is dispatched before the first that does |
| Sse.NullLosesItsRead | web/src/features/chat/lib/parseSSE.ts:16-24 | a token followed by a null chunk is such a stream |
| Sse.NullStreamLosesItsRead | web/src/features/chat/lib/parseSSE.ts:16-24 | a concrete one: `data: null` after a token, under a reader that exists |
| Sse.SuchAReaderExists | web/src/features/chat/lib/parseSSE.ts:18 | a reader that inverts json.dumps, as the printing theorems assume of JSON.parse, and reads the text null as null, does exist |
| Sse.FrameSplits | app/inbound/http/controllers/chat/stream.py:41-43 | a printed frame closes as exactly one chunk and leaves the rest of the stream alone |
| Sse.PrintParses | app/inbound/http/controllers/chat/stream.py:36-64 | parsing the printed frames of any items gives exactly their events, raises nothing and leaves an empty remainder |
| Sse.ExpectedMeans | app/inbound/http/controllers/chat/stream.py:36-64 | the events meant: one per item with its fields, and an error at the end if the call failed |
| Sse.StreamArrivesIntact | web/src/features/chat/hooks/useStreamChat.ts:144-163 | however the network cuts the printed stream, the client dispatches exactly the server's events and never raises |
| ChatTokens.ExecuteToolRound | app/outbound/adapters/openai/chat_client.py:120-174 | the assistant turn and one result per call are appended in request order, each the named tool's result on the arguments asked for, unreadable ones counting as none; None exactly if some tool raised |
| ChatTokens.StreamWithTools | app/outbound/adapters/openai/chat_client.py:332-409 | the emitted items and the conversation sent with every model call, for every configured cap (at least one round), reply sequence and tool outcome |
| ChatTokens.Ledger | app/outbound/adapters/openai/chat_client.py:332-409 | at every cut the latest sentinel carries exactly the cost and tools of the model calls whose sentinel was seen |
| ChatTokens.Ending | app/outbound/adapters/openai/chat_client.py:362-409 | the number of sentinels, and exactly when the stream ends normally |
| ChatTokens.TextIsInFlight | app/outbound/adapters/openai/chat_client.py:346-379 | a token that follows n sentinels belongs to model call n, so at most the call in flight is unbilled |
| ChatTokens.AnswerIsEverythingSaid | app/outbound/adapters/openai/chat_client.py:332-409 | the text of a stream is exactly all the text of the model calls that were made, in order |
| ChatTokens.OneMoreEvent | app/outbound/adapters/openai/chat_client.py:332-409 | what each gateway event adds: its text, its tokens, or a tool request in place of the one before |
| ChatTokens.SentinelsNeverDecrease | app/outbound/adapters/openai/chat_client.py:346-379 | running totals never decrease along a stream |
| ChatTokens.EstimateTokensFromText | app/application/chat/use_cases/chat_stream.py:44-54 | a quarter of all characters, plus one |
| ChatTokens.Settle | app/application/chat/use_cases/chat_stream.py:113-151 | what is recorded, which turn is saved and which time is reported, for any items that arrived; a failing record or save is swallowed and stops nothing else |
| ChatTokens.BillAtEveryCut | app/application/chat/use_cases/chat_stream.py:113-129 | the bill is the cost of the calls seen; a positive estimate if that is nothing but text was shown; nothing exactly when nothing was shown or paid |
| ChatTokens.BilledMeans | app/application/chat/use_cases/chat_stream.py:113-129 | the bill in plain fields: the last total, or a quarter of the characters and one |
| ChatTokens.NormalBillIsEverything | app/application/chat/use_cases/chat_stream.py:113-129 | a stream that ends normally bills every model call that was made |
| ChatTokens.PromptsArePaired | app/outbound/adapters/openai/chat_client.py:120-174 | every model call is sent a conversation in which each tool request is followed by its results in order, and no result stands elsewhere |
| ChatTokens.RoundMeans | app/outbound/adapters/openai/chat_client.py:120-174 | what a tool round adds to the conversation, in plain fields |
| ChatTokens.PromptGrows | app/outbound/adapters/openai/chat_client.py:332-409 | every model call is sent the seed and then what each round before it added |
| SessionStore.Ttl | app/outbound/adapters/redis/session_store.py:30-32 | a session is stored exactly if it has at least a second to live, and its key dies less than a second early and never late |
| SessionStore.RedisSessionStore.SaveSession | app/outbound/adapters/redis/session_store.py:19-40 | key, index entry and trimming, or nothing for an expired session |
| SessionStore.RedisSessionStore.Get | app/outbound/adapters/redis/session_store.py:42-51 | a live key of this user that has not expired |
| SessionStore.RedisSessionStore.RevokeSession | app/outbound/adapters/redis/session_store.py:53-59 | exactly this key and this index entry go |
| SessionStore.RedisSessionStore.ListActive | app/outbound/adapters/redis/session_store.py:61-74 | the sessions behind the entries with a score of at least now, in score order, dead keys skipped and nothing else |
| SessionStore.RedisSessionStore.RevokeAllSessions | app/outbound/adapters/redis/session_store.py:76-85 | every indexed key and the index go |
| SessionStore.RunKeepsInv | app/outbound/adapters/redis/session_store.py:36-40 | after any operations in time order every unexpired session stands in its owner's index under its expiry |
| SessionStore.GotIsIndexedAndListed | app/outbound/adapters/redis/session_store.py:42-74 | whatever get returns is in its owner's index and in every listing of the owner's |
| SessionStore.ListedResolvesIff | app/outbound/adapters/redis/session_store.py:49-65 | a listed session of the user's own resolves exactly if it has not reached its expiry |
| SessionStore.ListedAtItsExpiry | app/outbound/adapters/redis/session_store.py:49-65 | a ten-second session that at its expiry is listed and does not resolve |
| SessionStore.RevokeAllLogsOut | app/outbound/adapters/redis/session_store.py:76-85 | after any history, revoke_all leaves nothing that resolves and an empty listing, until a session is saved for the user again |
| SessionStore.RevokeLogsOut | app/outbound/adapters/redis/session_store.py:53-59 | after any history, a revoked session resolves for nobody and stands in no listing until it is saved again |
| SessionStore.RevokeTouchesNoOther | app/outbound/adapters/redis/session_store.py:53-59 | every other session resolves, and is indexed, as before |
| SessionStore.LateDropKeepsInvIff | app/outbound/adapters/redis/session_store.py:78-85 | with other operations between its two round trips, the index invariant survives exactly if every unexpired session of the user is among the ids read |
| SessionStore.LoginDuringRevokeAllEscapes | app/outbound/adapters/redis/session_store.py:78-85 | a concrete login in between resolves but is listed nowhere |
| SessionStore.SavedLasts | app/outbound/adapters/redis/session_store.py:29-40 | a session under a fresh id resolves for its owner alone, through any operations on others, until less than a second before its expiry and never after |
| BudgetReader.MonthArithmetic | app/main/scheduler/main.py:55-69 | the three month helpers are integer arithmetic on a month index across any number of year ends, and invert each other |
| BudgetReader.WalkIsSubMonths | app/outbound/adapters/sqla/insights/budget_summary_reader.py:39-46 | the step-by-step walk is the closed form |
| BudgetReader.RangeIsMonths | app/outbound/adapters/sqla/insights/budget_summary_reader.py:48-54 | the days from the first of one month to the last of another are exactly the days of the months between |
| BudgetReader.RangeScanRefinesMonthScans | app/outbound/adapters/sqla/insights/budget_summary_reader.py:21-87 | in whatever order either scan comes, a month's bucket of the range scan is the multiset of that month's own scan |
| BudgetReader.OneMoreRow | app/outbound/adapters/sqla/insights/budget_summary_reader.py:89-116 | a row of the table is a row of its owner's month, with these fields |
| BudgetReader.NoRowIsDropped | app/outbound/adapters/sqla/insights/budget_summary_reader.py:75-77 | every scanned row has a bucket |
| BudgetReader.BudgetSummaryReader.Fetch | app/outbound/adapters/sqla/insights/budget_summary_reader.py:89-116 | the user's rows in the range, in no promised order |
| BudgetReader.BudgetSummaryReader.ReadMonth | app/outbound/adapters/sqla/insights/budget_summary_reader.py:21-26 | the multiset of the user's rows dated in this month; an error exactly for an unrepresentable month |
| BudgetReader.BudgetSummaryReader.ReadHistoryMonths | app/outbound/adapters/sqla/insights/budget_summary_reader.py:28-87 | keys are exactly the n months before the given one, each with exactly that month's rows; the error cases exactly |
| Aggregation.SortedListIsUnique | app/domain/services/monthly_aggregator.py:132 | there is one way to list a set of currencies in Python's string order |
| Aggregation.Aggregate | app/domain/services/monthly_aggregator.py:126-188 | one entry per currency in order, with its income, expenses, net, five largest categories, count and largest expense |
| Aggregation.TopCategories | app/domain/services/monthly_aggregator.py:153-163 | the dictionary loop and the stable sort compute the ranked categories |
| Aggregation.AggregateRows | app/domain/value_objects/budget_summary_snapshot.py:58-87 | None exactly for no rows; otherwise one entry per currency in order with its totals and count |
| Aggregation.OneMoreRow | app/domain/services/monthly_aggregator.py:126-163 | what each row adds: to its currency, to income or expenses, and to its category |
| Aggregation.NamesAreCategories | app/domain/services/monthly_aggregator.py:153-160 | the ranked names are exactly the categories of the labelled expenses |
| Aggregation.AggregatorsAgreeIff | app/domain/value_objects/budget_summary_snapshot.py:69-75 | same currencies, order, income and counts; expenses agree exactly when the rows that are neither kind sum to zero |
| Aggregation.StoredRowsAgree | app/domain/services/monthly_aggregator.py:126-188 | on income and expense rows the two agree on everything |
| Aggregation.EveryRowIsCountedOnce | app/domain/services/monthly_aggregator.py:127-129 | the counts of all currencies add up to the number of rows |
| Aggregation.OrderDoesNotMatter | app/outbound/adapters/sqla/insights/budget_summary_reader.py:89-116 | totals and counts depend on the rows only as a multiset, so on no query order |
| Aggregation.RankingIsStable | app/domain/services/monthly_aggregator.py:161 | categories with equal totals keep their order of first appearance |
| Aggregation.TopDominates | app/domain/services/monthly_aggregator.py:153-163 | five categories or all there are, in descending order; every one left out is no larger than any kept |
| Aggregation.TopWithinExpenses | app/domain/services/monthly_aggregator.py:137-163 | with no negative expense the categories shown never exceed the expenses |

## Left out

- InsightRepository.Repository.CompleteInsight: does not model a completion that reads the row and saves it around another transaction, because each unit of work is taken as atomic.
- InsightWorker.Worker.Environment: its contract allows any number of other processes' steps; its body is the idle one.
- OutboxGuarantees.SoloSentIsFinal: is false after a commit that is applied but reported as failed (`OutboxGuarantees.LostCommitCanLoseSent`); `OutboxGuarantees.SentIsFinalIff` has the exact condition, for any number of pollers.
- OutboxGuarantees.PublishedAtMost: without the failure records there is no bound (`OutboxGuarantees.LostRecordsRepublish`).
- Outbox.OutboxPoller.SnapshotPendingIds: does not model the order by creation time, because nothing proved depends on it.
- DeliveryLiveness.QueuedLeadsToClaim: a dead-lettered event needs an operator, because replaying the DLQ is not part of this model; fairness is assumed of the poller, the broker and the operator, none of which the code decides.
- FireDueRules.Runner.Run: does not model a storage error while a rule is saved or fetched, which aborts the whole run, nor a second scheduler holding row locks.
- SessionStore.RedisSessionStore.ListActive: does not fix the order of ids with equal scores.
- SessionStore.RedisSessionStore.RevokeAllSessions: takes the two round trips as one; `SessionStore.LateDropKeepsInvIff` states what their separation costs.
- Sse.ParseSSEBuffer: field values that are neither null nor strings are kept as opaque JSON text.
- Sse.PrintParses: assumes that the browser's reader inverts json.dumps on objects of strings; strings are sequences of Unicode scalar values, so lone surrogates do not occur. The error frame's message is any string instead of the one in the source.
- ChatTokens.ExecuteToolRound: tool arguments are flat dictionaries of strings.
- ChatTokens.StreamWithTools: does not model the response text check, which only logs.
- ChatTokens.Ledger: relies on the gateway's promise of one usage record at the end of a plain call that succeeds; for the rounds with tools it needs no such promise.
- Gcra.ScriptIsTokenBucket: numbers are exact; Lua's doubles are exact for the times and limits in use.
- Aggregation.Aggregate: does not model the savings rate, volatility, average and number of income sources (floating point or rounded division), and takes decimal sums as exact.
- Aggregation.TopCategories: does not model each category's share of the expenses, a float.
- Calendar.AddDays: does not model the overflow of dates past the year 9999.
- The database, Redis, Kafka and OpenAI clients, HTTP controllers, tracing and metrics are foreign calls; their effects are parameters or contracts.
- Outbox rows of other event types and malformed payloads: no modelled producer writes them.
- The idempotency middleware, which gives no at-most-once guarantee to state.
- Derivation of rate-limit keys from cookies and proxy headers, and the policy marker in the key.
- Edits, pauses and resumptions of recurring rules, which do not recheck the end date.
- The behavioural-shift detector, summary text, prompts and the semantic hash: floating point and text formatting.
- UTF-8 decoding of the stream, user interface code, authentication, mail, audit, plan limits and migrations.
