# Pickups, payments and proofs: a verified model

The waste-collection backend moves pickups through a lifecycle and raises and
confirms payments for them. Many requests and a background sweep run at once, and
the design rests on conditional `UPDATE`s whose `WHERE` guard names the source
status. This project models the service as what it is, any number of little
programs over three tables and an object store, interleaved call by call, and
proves what that design does and does not guarantee.

| file | what it models |
|---|---|
| `Domain.dfy` | the entities, statuses, prices and errors |
| `Tables.dfy`, `TableFacts.dfy` | the meaning of every SQL statement, the schema constraints, what each statement keeps |
| `Atomic.dfy`, `Answers.dfy` | the one-step specification of every service call, and its decision table on the fields of the rows |
| `Repositories.dfy`, `Services.dfy` | the adapters and services as classes that change their state in place |
| `System.dfy` | the interleaved system: program points, row and key locks, transactions, fresh UUIDs, infrastructure failures |
| `Invariants.dfy` | the inductive invariant of that system |
| `Linear.dfy` | linearizability |
| `Lifecycle.dfy`, `PendingRule.dfy`, `GuessedIds.dfy`, `Witness.dfy` | the business rules under interleaving, exactly as far as they hold, and runs where they give way |
| `Provenance.dfy` | which call every pickup row comes from |
| `Proofs.dfy` | the confirmation race and the proof objects |
| `Progress.dfy` | no deadlock, and every call ends |
| `Staleness.dfy`, `SweepOrder.dfy` | the age bound of organic pickups, and the bulk update as single cancellations in any order |
| `Sums.dfy`, `Accounting.dfy`, `Reports.dfy` | conservation over runs, the two summaries, the revenue |
| `Transactions.dfy` | nested `Do` calls, rollback and commit |
| `RateLimit.dfy` | the per-IP limiter and its janitor |
| `Sanitize.dfy`, `Pagination.dfy`, `PaymentList.dfy` | text cleaning, paging, the null-aware payment filter |

`dafny verify dfyconfig.toml` checks everything.

## How the system is modelled

A state holds the tables, the stored objects, a clock that never goes back, the
UUIDs used so far, and every call made so far with its program point and locals.
One action is one call arriving, the clock moving, or one client doing its next
repository call, storage call or clock read. Calls that returned stay in the state
with their answer, so a state knows all that was ever answered. `Reachable` states
are those some run leads to from an empty or seeded database.

- The two transactions run at read-committed isolation. Their writes stay with the
  client until the commit; meanwhile `Complete` locks its pickup row and its entry in
  the unique index, and a created pickup share-locks its household. A client that needs
  a lock somebody holds cannot move.
- Any step that touches the database or the storage may fail for want of
  infrastructure, without effect.
- A drawn UUID is new, and a caller names a pickup that exists or an id that will
  never be one. `GuessedIds.FallbackExactly` says what a scheduling call
  that does not keep to that can be told.
- Prices are integer cents; a payment too large for `numeric(14,2)` is refused by the
  insert.

## Where code and documentation differ

- Rule 1 of the service's README (line 151) is checked, then acted on, in a
  read-committed transaction. It holds for a call that no payment call or completion for
  the household overlaps (`PendingRule.Rule1WithoutOverlap`) and can fail otherwise:
  `Witness.Rule1CanBreak` is such a run and `PendingRule.Rule1Exactly` says exactly when.
- Rule 4 (line 154 there) promises cancellation within the time to live. The code gives
  the time to live, or how late an insert may land if that is longer, plus the gap since
  the last sweep, and nothing less (`Staleness.BoundExactly`).
- `Complete` reports "not scheduled" without looking at the status it reads back. The
  report was true when the guard was lost, but need not be any more
  (`Witness.CompleteCanReportStale`, `Lifecycle.CompleteDiagnosisExactly`).
- `Offset` multiplies in 64 bits. Page numbers far past the end can wrap to the first
  page again (`Pagination.OffsetCanWrap`, `Pagination.OffsetExactly`).

## Model

Paths are those of the service's repository; `README.md` among them is the service's own.

| member | source | states |
|---|---|---|
| Linear.Linearizable | README.md:19 | for every run there is a serial run of the one-step specifications with the same tables, in which every call that returned appears once with its own request, timestamp and answer and, if it did not fail, its own UUID, and calls that did not overlap keep their order; the check for pending payments of a created pickup comes at or before its insert there, with only overlapping calls in between |
| Linear.DecidingCompleteStep | internal/core/service/pickup/complete.go:11-44 | the step in which a completion is decided, be it the commit, the refused insert or the lost guard, is its atomic execution on the committed tables; every other step of it leaves them alone |
| Linear.DecidingUpdateStep | internal/core/service/pickup/schedule.go:12-28 | Schedule and Cancel take effect in their last step: the guarded update if it matches, otherwise the second read, whose answer is the atomic one at that moment |
| Linear.DecidingPaymentStep | internal/core/service/payment/create.go:12-34 | reading the pickup long before inserting its payment is harmless: creation and confirmation answer and write as one atomic step at their last statement |
| Lifecycle.LostAnswerStands | internal/core/service/pickup/complete.go:19-24 | however long a completion that lost its guard pauses, and whatever runs meanwhile, its second read answers what was so when the guard was lost |
| Invariants.RunKeepsInv | db/migrations/0001_init.up.sql:9-36 | every run from a well-formed state keeps keys, foreign keys, the unique waste id, priced payments, legal statuses, billed completions, and what each call in flight relies on; and it only moves rows forward |
| Invariants.OthersRely | internal/adapter/out/postgres/pickup.go:104-117 | no step of another client takes away what a call relies on between its own steps |
| Invariants.StepHarmless | internal/adapter/out/postgres/tx.go:45-58 | a locked row, a held index entry, a referenced household and an unpublished id are left alone by every step of every other client |
| TableFacts.CompletePickupKeeps | internal/core/service/pickup/complete.go:15-36 | the two writes of a completion together keep every table invariant, although the first alone breaks one |
| TableFacts.GuardIsRule | internal/core/domain/pickup.go:47-55 | the WHERE guard of the scheduling update and the rule in the domain package reject the same pickups |
| Answers.CreatePickupAnswers | internal/core/service/pickup/create.go:12-37 | in one step: refused while a payment of the household is pending, then for a missing household; otherwise the stored and returned row has the household, type and safety check asked for, is pending and undated |
| Answers.ScheduleAnswers | internal/core/domain/pickup.go:47-55 | in one step: not found, else "not pending" by status, else "safety check required", else the row is scheduled for the date asked for and nothing else of it changes |
| Answers.CompleteAnswers | internal/core/service/pickup/complete.go:14-39 | in one step: succeeds exactly if the pickup is scheduled and unbilled, the new id is free and the price has at most twelve digits before the point; then row and payment are as given, else the error named and no change |
| Answers.CancelAnswers | internal/core/service/pickup/cancel.go:11-23 | in one step: not found, else "not cancelable" unless pending or scheduled, else canceled with every other field, the date among them, kept |
| Answers.SweepAnswers | internal/adapter/out/postgres/pickup.go:119-126 | in one step: the rows that are organic, pending or scheduled and created before the timestamp minus the time to live become canceled, every other row stays, and the count is theirs |
| Answers.CreatePaymentAnswers | internal/core/service/payment/create.go:12-34 | in one step: not found, else household mismatch, else too large, else already exists, else a pending payment at the price of the type |
| Answers.ConfirmAnswers | internal/adapter/out/postgres/payment.go:124-138 | in one step: not found, else not pending, else the row is paid, dated and updated at the timestamp, carries the URL of the call's own object with the extension of its type, and keeps every other field |
| Answers.DeleteHouseholdAnswers | internal/adapter/out/postgres/household.go:91-105 | in one step: not found, else "has dependents" if a pickup or payment refers to it, else gone |
| Answers.CompletionGoesThrough | internal/core/service/pickup/complete.go:25-38 | in every reachable state: a completion that won its guard holds the scheduled row, its insert is refused exactly for a price too large or an existing payment of the pickup, and its commit succeeds |
| Answers.ManualBillGoesThrough | internal/core/service/payment/create.go:17-34 | in every reachable state: the insert of a manual payment is refused exactly for a price too large or an existing payment of the pickup |
| Answers.StepReadsClock | internal/core/service/payment/confirm.go:28 | the step in which each kind of call reads its timestamp, a confirmation after its upload |
| Answers.StepFails | internal/core/service/payment/confirm.go:23-26 | a failed step ends the call without effect; a failed upload is reported as storage unavailable |
| Provenance.EveryRowExplained | internal/adapter/out/postgres/pickup.go:104-126 | in every run every pickup was there from the start or has a successful creating call that asked for its household, type and safety check; past pending, a call that answered with this very row, or a finished sweep it was overdue for, moved it last; and a scheduled or completed one has the date some successful Schedule call asked for |
| Provenance.ElectronicWasChecked | internal/core/service/pickup/create.go:14-22 | in every run an electronic pickup that is scheduled or completed was requested with a passed safety check, or was there, checked, from the start |
| Provenance.CanceledWasAskedFor | internal/adapter/out/postgres/pickup.go:114-120 | in every run a canceled pickup that is not organic has a successful Cancel call that answered with its row |
| Provenance.CreatorsTold | internal/core/service/pickup/create.go:13-36 | in every run a creating call that did not fail answered with the row asked for, under its own UUID and timestamp |
| Lifecycle.CompletedHasItsPayment | internal/core/service/pickup/complete.go:25-36 | in every reachable state a completed pickup has exactly one payment, for its household, at its price, created at the pickup's completion timestamp |
| Lifecycle.TablesStayConsistent | db/migrations/0001_init.up.sql:24-36 | in every reachable state all references resolve across the tables, no payment is failed, paid, dated and proven coincide, and nothing is past pending without a date and, if electronic, a safety check |
| Lifecycle.NothingIsLost | internal/adapter/out/postgres/household.go:91-105 | along any continuation no pickup or payment disappears or moves back, paid payments and closed pickups never change, and only childless households go |
| Lifecycle.CompletionIsAllOrNothing | internal/core/service/pickup/complete.go:14-39 | a completion either changes exactly its pickup and adds exactly its payment, to a scheduled and unbilled pickup, or changes nothing |
| Lifecycle.BilledCompletionRollsBack | internal/adapter/out/postgres/payment.go:69-80 | a completion that meets an existing payment for its pickup fails with "already exists" and leaves the tables as they were |
| Lifecycle.BilledStaysUncompleted | db/migrations/0001_init.up.sql:36 | a pickup billed before it was completed is not completed in any continuation of the run |
| Lifecycle.ScheduleDiagnosisIsTrue | internal/core/service/pickup/schedule.go:17-26 | after any interference the second read of Schedule answers "not pending" exactly if the row is not pending at that read, and else "safety check required" of an unchecked electronic one; the final fallback is never reached |
| Lifecycle.CancelDiagnosisIsTrue | internal/core/service/pickup/cancel.go:16-21 | "not cancelable" is only ever reported of a pickup that is closed at the time of the report |
| GuessedIds.FallbackExactly | internal/core/service/pickup/schedule.go:13-25 | in every run after a Schedule call with a guessed id: it answers "not pending" of a pending pickup exactly if the pickup was not there in the definite action that was its update, is there at its second read, and could be scheduled then |
| GuessedIds.GuessReachesFallback | internal/core/service/pickup/schedule.go:22-25 | a run in which a call that guesses an uncommitted pickup's id gets to the last fallback: "not pending" of a pickup that could be scheduled |
| Lifecycle.CompleteDiagnosisExactly | internal/core/service/pickup/complete.go:19-24 | a completion before its second read sent the update, in one definite action of the run, when the pickup was not scheduled; at any moment until the report "not scheduled" is false exactly if a Schedule call has succeeded since that action and nothing has closed the pickup |
| PendingRule.Rule1Exactly | internal/core/service/pickup/create.go:23-32 | a call that got past its check looked in one definite action of the run, and nothing was pending; at any moment after, something is pending for the household exactly if a payment call or completion for it has succeeded since that action and no confirmation of that payment has |
| PendingRule.Rule1WithoutOverlap | internal/core/service/pickup/create.go:14-37 | when a pickup has just been created nothing is pending for its household, if no successful payment call or completion for it overlapped with the creating call |
| PendingRule.Rule1WhenAtomic | internal/core/service/pickup/create.go:12-37 | executed as one step, creation succeeds exactly if the household exists and has no pending payment, and leaves it without one |
| Witness.Rule1CanBreak | internal/adapter/out/postgres/tx.go:49 | a run in which a pickup is created for a household that has a pending payment |
| Witness.CompleteCanReportStale | internal/core/service/pickup/complete.go:20-23 | a run in which a completion reports "not scheduled" of a pickup that is scheduled |
| Proofs.OneWinner | internal/adapter/out/postgres/payment.go:124-138 | however many confirmations of a payment race, at most one ever succeeds |
| Proofs.PaidByItsWinner | internal/core/service/payment/confirm.go:13-36 | a payment is paid exactly if some confirmation succeeded; its payment date is that call's timestamp and its URL names that call's own object, in storage, under the payment's prefix |
| Proofs.ObjectsAccountedFor | internal/core/service/payment/confirm.go:22-34 | every stored object is referenced by a paid payment, left by a lost or failed confirmation, or held by one before its update, and only one of these |
| Progress.NoDeadlock | internal/adapter/out/postgres/tx.go:45-58 | while any call is unfinished some unfinished call is free to take its next step |
| Progress.WaitsExactly | internal/adapter/out/postgres/pickup.go:109-126 | which call waits for which, in terms of what both are doing: nothing waits but for an open completion's row or index entry, or for a new pickup's household |
| Progress.EveryCallEnds | internal/core/service/pickup/complete.go:11-44 | in any run a call takes at most the steps its kind of request has, four for the longest, and never more than it had left |
| Progress.EveryCallCanFinish | internal/adapter/out/postgres/tx.go:45-58 | from every reachable state steps of the calls in flight alone, at most four for each, bring all of them to their end |
| Staleness.BoundExactly | internal/core/service/pickup/cancelstaleorganic.go:5-9 | over all runs in which inserts land at most a lag after their timestamp, an age bounds every open organic pickup while the last finished sweep is at most a gap old exactly if it is at least the larger of time to live and lag, plus the gap |
| Staleness.NoOpenOrganicIsOlder | internal/adapter/out/postgres/pickup.go:119-126 | whatever else runs, nothing organic still open is older than the larger of time to live and lag, plus the gap |
| Staleness.LateInsertExactly | internal/core/service/pickup/create.go:13-31 | committing an organic pickup leaves nothing open from before a finished sweep's cutoff exactly if its own timestamp is before none of these cutoffs |
| SweepOrder.SweepIsAnyOrder | internal/adapter/out/postgres/pickup.go:114-126 | the bulk update leaves the tables that single cancellations of the stale pickups in any order leave, and counts their successes |
| SweepOrder.SweepsCompose | internal/adapter/out/postgres/pickup.go:119-126 | sweeping to an earlier and then a later cutoff leaves the statuses of one sweep to the later one, and the counts add up |
| SweepOrder.SweepAgainIsIdle | internal/adapter/out/postgres/pickup.go:119-126 | a repeated sweep finds nothing and changes nothing |
| Accounting.TransitionsAddUp | internal/adapter/out/postgres/pickup.go:104-126 | after any run: completed pickups equal successful completions, canceled ones equal cancellations plus all sweep counts, and transitions are at most twice the pickups there ever were |
| Accounting.RunConserves | internal/core/service/pickup/create.go:14-31 | the same at every moment, with the remaining rank of all pickups as the measure |
| Reports.SummarizeWaste | internal/adapter/out/postgres/report.go:35-54 | groups ascending and distinct, never empty, each the exact number of its rows, none missing; the total is the number of pickups |
| Reports.GroupsAlphabetical | internal/adapter/out/postgres/report.go:36 | the order of the groups is that of the column texts, type first |
| Reports.PaymentStatusesAlphabetical | internal/adapter/out/postgres/report.go:57 | the order of the statuses is that of the column texts |
| Reports.AddCounts | internal/core/service/report/wastesummary.go:14-18 | the loop returns the sum of the row counts |
| Reports.TotalIsAll | internal/core/service/report/wastesummary.go:9-19 | any correct answer of the grouping query sums to the number of pickups |
| Reports.SummarizePayments | internal/adapter/out/postgres/report.go:56-75 | per status the exact count and sum, and as revenue the sum of the paid amounts |
| Reports.AddRevenue | internal/core/service/report/paymentsummary.go:16-22 | the loop returns the revenue of the rows it was given |
| Reports.RevenueIsPaid | internal/core/service/report/paymentsummary.go:11-23 | folding any correct answer of the grouping query gives the sum of all paid amounts |
| Reports.RevenueIsWhatWasConfirmed | internal/core/service/report/paymentsummary.go:16-22 | in every reachable state the reported revenue is the sum, over all confirmations that succeeded so far, of the price of the pickup each was for |
| Reports.RevenueByPrice | internal/core/domain/payment.go:35-40 | it is the standard price times the paid non-electronic pickups plus the electronic price times the paid electronic ones |
| Transactions.NestingIsInvisible | internal/adapter/out/postgres/tx.go:45-48 | every callback program with Do calls nested to any depth runs like the one with only its outermost Do's left |
| Transactions.InnerDoJoins | internal/adapter/out/postgres/tx.go:30-35 | inside a transaction a program runs like itself with all Do's erased |
| Transactions.AllOrNothing | internal/adapter/out/postgres/tx.go:49-57 | the shared tables change by all writes of the callback exactly if begin, callback and commit succeed and no statement failed, even one whose error was swallowed; otherwise Do fails and nothing changes |
| Transactions.NothingLeaks | internal/adapter/out/postgres/tx.go:53-56 | no statement inside a transaction changes the shared tables, and after a failed one none has any effect |
| Transactions.CompleteMeetsSpec | internal/core/service/pickup/complete.go:14-39 | the completion callback under Do does what the one-step specification says, or fails without effect if begin or commit fails |
| Transactions.TxManager.Do | internal/adapter/out/postgres/tx.go:45-58 | begin, run, roll back or commit, joining an open transaction, as the evaluation function says |
| RateLimit.EvictionInvisibleExactly | internal/adapter/in/http/middleware/ratelimit.go:71-80 | forgetting idle addresses changes no answer in any sequence of requests and evictions exactly if an empty bucket fills up before it can be forgotten |
| RateLimit.TenMinutesSuffice | internal/adapter/in/http/middleware/ratelimit.go:28-35 | ten minutes' worth of requests covering the burst is enough for that |
| RateLimit.WindowBound | internal/adapter/in/http/middleware/ratelimit.go:49-56 | in any window an address gets at most the burst plus the refill of the window through |
| RateLimit.MinuteBound | internal/adapter/in/http/middleware/ratelimit.go:28-35 | in any minute an address gets at most the burst plus the requests a minute through |
| RateLimit.NextAfterBurst | internal/adapter/in/http/middleware/ratelimit.go:28-47 | a new address has its whole burst let through at once, and the next request exactly if the requests a minute times the wait make a minute |
| RateLimit.IPRateLimiter.LimiterFor | internal/adapter/in/http/middleware/ratelimit.go:37-47 | returns the bucket of the address, a full one on first sight, and records the visit |
| RateLimit.IPRateLimiter.Evict | internal/adapter/in/http/middleware/ratelimit.go:71-80 | the loop removes exactly the addresses not seen for longer than the time to live |
| Sanitize.FixedExactlyIfNormal | internal/adapter/in/http/dto/helper.go:8-16 | exactly the texts without control characters and without white space other than single inner spaces are unchanged, and cleaning twice is cleaning once |
| Sanitize.SanitizedIsNormal | internal/adapter/in/http/dto/helper.go:8-16 | the result never has a control character, outer white space or two white space characters in a row |
| Sanitize.EqualExactlyIfSameWords | internal/adapter/in/http/dto/helper.go:8-16 | two inputs come out equal exactly if they have the same words |
| Sanitize.SanitizedChars | internal/adapter/in/http/dto/helper.go:8-16 | by code point: nothing but ordinary characters and spaces gets through, no space at an end or beside another |
| Sanitize.OrdinaryTextStays | internal/adapter/in/http/dto/helper.go:8-16 | by code point: text of ordinary characters with single inner spaces is left alone |
| Sanitize.SanitizeKeepsWords | internal/adapter/in/http/dto/helper.go:15 | splitting the result gives back the words of the input |
| Pagination.Parse | internal/pkg/pagination/pagination.go:22-35 | page 1 and 10 rows unless a positive number is given, and never more than 100 rows |
| Pagination.ParsedInRange | internal/pkg/pagination/pagination.go:22-35 | any two strings give usable parameters, and written-out valid ones come back as they were |
| Pagination.AtoiSigned | internal/pkg/pagination/pagination.go:24-31 | a leading sign is understood, up to the limits of 64 bits |
| Pagination.AtoiRefuses | internal/pkg/pagination/pagination.go:24-31 | a text with anything but digits after its first character is no number, so the default applies |
| Pagination.OffsetExactly | internal/pkg/pagination/pagination.go:37 | the offset is the intended one, and not negative, exactly if the product fits in 64 bits |
| Pagination.OffsetCanWrap | internal/pkg/pagination/pagination.go:37 | a valid page number whose offset wraps to zero |
| Pagination.PagesPartition | internal/pkg/pagination/pagination.go:37-43 | the pages up to the one computed from the total show every row once and in order, and later ones whose offset fits in 64 bits are empty |
| PaymentList.List | internal/adapter/out/postgres/payment.go:82-97 | the requested page of the matching rows in the order of the query, or an error for a negative offset |
| PaymentList.Count | internal/adapter/out/postgres/payment.go:99-106 | the number of matching payments |
| PaymentList.CountIsLength | internal/core/service/payment/list.go:11-21 | the list without paging has each matching payment once and is as long as Count says |
| PaymentList.ListedExactly | internal/adapter/out/postgres/payment.go:83 | a payment is listed exactly if it has the status and household asked for and its date, which it must have if a bound is given, is within both bounds, bounds included |
| PaymentList.PagesShowEachOnce | internal/core/service/payment/list.go:11-21 | as many pages as Count calls for show exactly the filtered list |
| PaymentList.TotalReadLaterExactly | internal/core/service/payment/list.go:11-21 | in every run, rows read first and the total later: without a filter on status or date the total is at least the number of rows that matched, and equal exactly if no call raised a payment of that household in between |
| PaymentList.DatedMeansPaid | internal/adapter/out/postgres/payment.go:82-106 | in every reachable state a date bound leaves only paid payments, and asking for pending ones within dates finds none |
| Repositories.Database.SchedulePickup | internal/adapter/out/postgres/pickup.go:104-107 | the guarded update in place and the row it returns |
| Repositories.Database.CompletePickup | internal/adapter/out/postgres/pickup.go:109-112 | the guarded update in place and the row it returns |
| Repositories.Database.CancelPickup | internal/adapter/out/postgres/pickup.go:114-117 | the guarded update in place and the row it returns |
| Repositories.Database.CancelStaleOrganic | internal/adapter/out/postgres/pickup.go:119-126 | visiting the rows one by one in any order cancels exactly the stale ones and counts them |
| Repositories.Database.InsertPayment | internal/adapter/out/postgres/payment.go:69-80 | overflow, either unique key and missing parents are refused with the mapped errors, otherwise the row is added |
| Repositories.Database.HasPendingByHousehold | internal/adapter/out/postgres/payment.go:60-67 | whether some payment of the household is pending |
| Repositories.Database.ConfirmPayment | internal/adapter/out/postgres/payment.go:124-138 | the guarded update in place and the row it returns |
| Repositories.Database.DeleteHousehold | internal/adapter/out/postgres/household.go:91-105 | removes the household, or refuses a missing one or one with dependents |
| Services.Services.CreatePickup | internal/core/service/pickup/create.go:12-37 | check, insert and commit or roll back equal the one-step specification |
| Services.Services.Schedule | internal/core/service/pickup/schedule.go:12-28 | guarded update and diagnosis equal the rule of the domain package applied in one step |
| Services.Services.Complete | internal/core/service/pickup/complete.go:11-44 | with rollback on every error, equals the all-or-nothing specification and leaves no transaction open |
| Services.Services.Cancel | internal/core/service/pickup/cancel.go:11-23 | guarded update and diagnosis equal the one-step specification |
| Services.Services.CancelStaleOrganic | internal/core/service/pickup/cancelstaleorganic.go:5-9 | cancels what is stale at the timestamp minus the time to live and returns how many |
| Services.Services.CreatePayment | internal/core/service/payment/create.go:12-34 | lookup, household check and priced insert equal the one-step specification |
| Services.Services.Confirm | internal/core/service/payment/confirm.go:13-36 | read, upload and guarded update equal the one-step specification; exactly the calls that reach a working storage leave an object |

## Left out

- Linear.Linearizable: a creation is not one serial step but its check and, later, its insert, because the code does not keep them together (Witness.Rule1CanBreak).
- System.Step: one repository call is one step. A bulk update that waits half-way for a row lock, its statement snapshot, and locks kept between a failed insert and its rollback are not split further.
- System.Enabled: a UUID collision, and a caller guessing the id of a pickup not yet committed, are excluded; GuessedIds lets one Schedule call guess.
- Ambiguous commits, where the client sees an error but the database committed, and panics inside a callback.
- Transactions.Eval: runs one program at a time; other clients between its statements are the subject of System.
- Repositories.Database: one connection, so a transaction is a savepoint; statements do not fail there for want of infrastructure.
- RateLimit.IPRateLimiter.Allow: looking up a limiter and asking it are one step, and the limiter is a value in the map, not a pointer that outlives its eviction; tokens are exact integers, not floating point.
- Sanitize.SanitizeText: works on Unicode code points, so invalid UTF-8 is not modelled.
- PaymentList.PagesShowEachOnce: all pages come from one table; a client that asks for them one after the other can see rows shift when payments arrive in between.
- PaymentList.CountIsLength: rows and total from one table; the service reads them in two statements. PaymentList.TotalReadLaterExactly says what that makes of them, except for filters on status or date.
- Rows with equal created_at: the query leaves their order open, so paging is stated for one fixed order of the rows.
- Decimal and timestamp internals: integer cents, and microseconds (in the limiter nanoseconds); prices with fractions of a cent.
- HTTP handlers, routing, validation, presenters, the storage client, content sniffing, configuration, the worker's ticker, household listing and history: plumbing or plain reads.
