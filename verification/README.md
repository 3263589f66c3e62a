# Electronic invoicing: billing, outbox, document creation, prices, cards and document algorithms

Dafny models of the parts of the invoicing service where several rows, several requests or several
steps have to agree, with proofs of what they keep.

- **Calendar and charges** (`Calendar`, `Proration`): the clamped month addition under every billing
  period, over the proleptic Gregorian calendar, and the prorated charges in whole cents.
- **Billing** (`Tiers`, `Billing*`): subscriptions, payments, tenants and quota rows. `Billing` says what
  each operation does to the tables as one step; `BillingService` has the operations as code that writes
  the tables one after another and proves it equal to those steps; the other modules prove the
  invariant, the daily job, the quota job, the tiling of billing periods and the refunds. `BillingRequests`
  says when a request goes through and at what charge, `BillingEffects` what every other step makes of
  every row of every table, `BillingCounts` what is counted, granted and due over whole runs.
- **Outbox and documents** (`Outbox*`): outbox rows, messages, event logs and the document state machine,
  as steps against a queue that duplicates, drops and reorders and an authority that answers anything.
  Publishing and marking a row are separate steps, and so are a failing delivery and the record of its
  failure; `Dispatch` and `ReceiveAndRecord` are the same pairs taken as one step. `OutboxAnswers`
  says column by column what SRI's answers make of a document, `OutboxBudget` is the retry budget,
  `OutboxRaces` the runs that late marks and records spoil.
- **Document creation** (`Creation*`): creations, counter edits, quota rollovers and cap changes, alone
  (`Creation`), interleaved statement by statement under row locks with rollback anywhere
  (`CreationLocks`), what their commit order implies (`CreationLedger`) and the services over the tables
  (`CreationService`).
- **Prices** (`Pricing`): the append-only history of tier and seat prices with its notice floor.
- **Cards** (`Cards`, `CardsLedger`, `CardAttempts`, `CardService`): two-phase confirmation, crashes between the phases,
  recovery writes, the two sweeps row by row, reviews and refunds.
- **Algorithms** (`AccessKey`, `XmlText`, `Signature`, `TaxTotals`): the access key and its Module 11 digit
  (SRI Ficha Tecnica, Esquema Offline, Table 1), XML unescaping (XML 1.0, section 4.6), the enveloped
  signature (section 6.6.4 of XML Signature Syntax and Processing), and tax totals with their rounding.

Instants are integer milliseconds, money is integer cents (exact rationals before rounding), JavaScript
strings in `XmlText` are UTF-16 code units. SRI, the payment gateway, the queue, the clock, prices, XSD
validation and signing are parameters of the steps.

Where the code does not meet what its comments promise, the model follows the code:

- `src/services/document-transmission.service.js:99-104` promises every RECEIVED document an authorization
  check. A failure recorded after its claiming transaction has ended can take the row away
  (`OutboxRaces.ALateNoteStrandsADocument`); `OutboxCoverage.AuthorizeCoveredExactly` says exactly when.
- `src/models/pending-effect.model.js:126-132` marks a row whatever its status, so a late mark reopens a
  DONE or FAILED row (`OutboxRaces.LateMarkReopens`), and lines 158-163 write the record of a failure over
  whatever the row has become: a late one takes a row out of FAILED, and nothing bounds the failures of
  its handler (`OutboxRaces.ALateNoteRevivesAFailedRow`, `OutboxRaces.LateNotesLiftTheBound`).
  `OutboxBudget` says exactly what holds all the same.
- `src/services/sri.service.js:50` puts `&amp;` last so that nothing is decoded twice; a numeric reference to
  the ampersand may be (`XmlText.UnescapeIsOneDecodeExactly` says exactly when).
- `helpers/signer.js:245` reads the signature block as a replacement template; the body is recovered all
  the same, the block itself is kept exactly when it holds no active dollar (`Signature.IntactExactly`).
- `src/services/payphone-payment.service.js:251` flags two real charges of one payment; both are APPROVED
  when the first is not applied yet (`CardsLedger.TwoTabsGoUnflagged`).
- The recovery write at lines 272-280 of the same file follows every failure after the claim, whatever the
  attempt holds, and a sweep writes over an attempt whatever it holds since the sweep read it: either may
  take back a stored outcome (`CardsLedger.OutcomeIsFinal`, `CardsLedger.AFailedReplayUndoesApproval`,
  `CardsLedger.ALateSweepExpiresACharge`).
- `src/services/subscription.service.js:1551-1563` stamps the payment behind a landed change only when its
  invoice was linked (`BillingJobs.LandedPaymentStaysInFlight`).
- The order of instants is not kept by clamping (`Calendar.InstantOrderIsNotKept`), the order of days is.

## Model

The services have further methods, each proved equal to its one step; those that only take the branches
of that step have no row.

| member | source | states |
|---|---|---|
| `Calendar.ShiftMonths` | src/utils/add-months.js:5-12 | letting the month overflow and then setting day 0 is "target month, day no later than its last one", for every instant and every month count, negative ones included |
| `Calendar.AddMonthsLands` | src/utils/add-months.js:5-12 | the result lies in the target month, on the clamped day, at the same time of day |
| `Calendar.AddMonthsMonotone` | src/utils/add-months.js:5-12 | order of days is always kept; order of instants exactly when the clamp does not fold two days of a month into one against their times of day |
| `Calendar.InstantOrderIsNotKept` | src/utils/add-months.js:5-12 | two instants of January 2023 change order when a month is added |
| `Calendar.AddMonthsLater` | src/utils/add-months.js:5-12 | a positive count lands at least 28 days later |
| `Calendar.OneMonthSpan` | src/services/subscription.service.js:61-63 | a monthly period lasts 28 to 31 days |
| `Calendar.OneYearSpan` | src/services/subscription.service.js:61-63 | a yearly period lasts 365 or 366 days |
| `Calendar.MonthlyChain` | src/utils/add-months.js:5-12 | along monthly steps the day of the month never rises and never falls below the 28th or the first day; the chain stays in the month one long step reaches, at most three days before it |
| `Calendar.TwelveMonthlyStepsVersusOneYear` | src/utils/add-months.js:5-12 | twelve monthly steps end in the month of one yearly step, zero to three days earlier |
| `Tiers.CapIsPool` | src/services/tenant-quota.service.js:12-36 | over the quota table in literals: the cap of a tier and interval is its monthly documents times one, or times twelve for a paid tier by the year; ENTERPRISE has none |
| `Proration.UpgradeChargeIsBounded` | src/services/subscription.service.js:287-313 | a same-interval upgrade costs between nothing and the price difference: all of it up to the period start, nothing from its end |
| `Proration.UpgradeChargeFalls` | src/services/subscription.service.js:287-313 | waiting never makes an upgrade dearer |
| `Proration.UpgradeIsProrated` | src/services/subscription.service.js:287-313 | within the period the charge is the price difference times the part of the period still to come, to the nearest cent, a half going up, and nothing exactly when that is under half a cent |
| `Proration.SeatsAreProrated` | src/services/subscription.service.js:659-678 | added seats are charged their price for the part of the period still to come, to the nearest cent |
| `Proration.YearlyMoveIsProrated` | src/services/subscription.service.js:361-409 | the move to yearly is charged the full year less the price of the month for the part of it still to come, to the nearest cent, and nothing when that credit is worth more |
| `Proration.SeatChargeFalls` | src/services/subscription.service.js:659-678 | added seats cost at most their full price, and never more by waiting |
| `Proration.ChainedUpgradesCostTheSame` | src/services/subscription.service.js:287-313 | n upgrades at one instant cost within n/2 cents of the direct one, whatever prices lie between |
| `Proration.YearlyMoveAlwaysCharges` | src/services/subscription.service.js:361-409 | the prorated move to a yearly plan dearer than twelve present months charges at least a cent, at least 11/12 of the yearly price up to half a cent, at most the full price |
| `Proration.CardBreakdownAlwaysFits` | src/services/payphone-payment.service.js:56-66 | no payment amount the system computes is refused by the gateway breakdown, and the taxed part is the base |
| `Proration.BreakdownIsTaxed` | src/services/subscription.service.js:38-51 | a payment is its base and the tax on it to the nearest cent; nothing is taxed on nothing |
| `BillingInvariant.ReviewKeepsInv` | src/services/subscription.service.js:998-1040 | verifying a payment keeps one current quota row with the right cap and length, FREE on monthly rows, ACTIVE on the tenant tier, at most one live subscription: exactly when its subscription does not collide with another one of the tenant |
| `BillingInvariant.RefundKeepsInv` | src/services/subscription.service.js:1432-1501 | a refund keeps the same invariant exactly when the restored rows do not collide with another subscription of the tenant |
| `BillingInvariant.InitialKeepsInv` | src/services/subscription.service.js:1090-1144 | a first payment keeps the invariant exactly when no other subscription of the tenant is live |
| `BillingInvariant.RenewalKeepsInv` | src/services/subscription.service.js:1285-1316 | a renewal keeps the invariant exactly when its tier is the tenant tier and no other subscription is live, which the code does not check |
| `BillingInvariant.TierChangeKeepsInv` | src/services/subscription.service.js:1153-1254 | the three forms of a tier change keep the invariant exactly under the conditions stated for each |
| `BillingInvariant.TierReviewed` | src/services/subscription.service.js:1166-1254 | what each form of a verified tier change leaves of the subscription row, the tenant tier and the quota rows |
| `BillingInvariant.ResizeKeepsQuota` | src/services/tenant-quota.service.js:70-83 | resizing for a tier and interval leaves one current row that agrees with them (see Tiers.CapIsPool), its start unmoved |
| `BillingInvariant.SyncKeepsQuota` | src/services/tenant-quota.service.js:101-108 | a new billing period opens one current quota row with its boundaries |
| `BillingRequests.SubscribeOutcome` | src/services/subscription.service.js:100-142 | subscribing goes through exactly for what is sold to a tenant with no live subscription, with each refusal, and leaves an unpaid subscription and a payment of its price |
| `BillingRequests.TierChangeGoesThrough` | src/services/subscription.service.js:184-270 | a tier change goes through exactly for another plan that is sold, when nothing is scheduled and no tier or seat change is unsettled |
| `BillingRequests.TierChangeOutcome` | src/services/subscription.service.js:272-500 | a downgrade waits unpaid; an upgrade is granted at once exactly when the difference for what is left of the period is under half a cent and otherwise opens a payment of it to the nearest cent; the move to a dearer year costs the year less what is left of the month; anything else is paid in full at the prices of the period end |
| `BillingRequests.SeatChangeGoesThrough` | src/services/subscription.service.js:586-657 | a seat change goes through exactly when it changes something and no cancellation, seat change or interval change is scheduled or unsettled |
| `BillingRequests.SeatChangeOutcome` | src/services/subscription.service.js:659-714 | fewer seats wait unpaid; more seats open a payment of their price for what is left of the period to the nearest cent, or are granted at once exactly when that is under half a cent |
| `BillingRequests.CancellationOutcome` | src/services/subscription.service.js:775-835 | a cancellation goes through exactly when nothing is scheduled or unsettled, and only schedules FREE |
| `BillingEffects.StepSubs` | src/services/subscription.service.js:998-1709 | what every review, refund, withdrawal, pass and promotion makes of every subscription, field by field: seats, scheduled changes, tier, interval, status and period |
| `BillingEffects.StepPayments` | src/services/subscription.service.js:855-1501 | what every proof, withdrawal, invoice, review and refund makes of every payment: its status, its stamp and the snapshot it keeps; purpose and amount never change |
| `BillingEffects.StepAccounts` | src/services/subscription.service.js:998-1709 | what every step but requests and the quota job makes of a tenant and its quota rows: its tier; past due ends with a first payment and begins with an expiry unless suspended; rows are opened or resized with their exact period, cap and count |
| `BillingEffects.PassAccounts` | src/services/subscription.service.js:1513-1709 | a whole pass, in any listing order, does to a tenant what landing its one due subscription does, and nothing when none is due |
| `BillingEffects.QuotaJobAccounts` | src/services/tenant-quota.service.js:118-158 | the quota job changes quota rows alone: an ended period rolls over, and the current row then takes on the period of the ACTIVE subscription with its count kept |
| `BillingCounts.StepKeepsCounts` | src/services/tenant-quota.service.js:70-158 | no billing step changes what a quota row has counted, edits or reopens a closed row, or opens one that has counted something |
| `BillingCounts.RunKeepsCounts` | src/services/tenant-quota.service.js:70-158 | over every run the documents counted stay exactly those, row by row and in all |
| `BillingCounts.RunPools` | src/services/tenant-quota.service.js:12-112 | in every state of every run a tenant has one current quota row, good for one month or, for a paid tier by the year, twelve, whose cap is the monthly documents of the tier times as many |
| `BillingCounts.DueWindows` | src/models/subscription.model.js:85-201 | when each pass takes a subscription, in days from the end of its period: landings from then on, a reminder in the seven days before, one warning from the fifth to the seventh day after, expiry from the seventh on |
| `BillingCounts.RemindersOpenRenewals` | src/services/subscription.service.js:1639-1673 | the reminder pass opens exactly one renewal for each due subscription, at the prices of its period end for the seats it will have, and changes nothing else |
| `BillingCounts.TierPassStamps` | src/services/subscription.service.js:1551-1563 | landing tier changes does nothing to payments but stamp the verified, invoiced payment behind a due interval change with the period that opens |
| `BillingJobs.PassKeepsInv` | src/services/subscription.service.js:1513-1709 | each of the five passes of the daily job keeps the billing invariant, over whatever rows its query finds, in any order |
| `BillingJobs.ForEachSubs` | src/services/subscription.service.js:1513-1602 | after a pass each listed subscription is landed once and every other is untouched |
| `BillingJobs.TickLeavesNothingDue` | src/controllers/admin.controller.js:391-406 | after seats, tiers and renewals no ACTIVE subscription whose period has ended keeps a scheduled tier or seat change |
| `BillingJobs.RolledForwardIsLeftAlone` | src/models/subscription.model.js:85-201 | a subscription rolled forward in a tick, its old period ended less than 33 days ago, is neither warned nor expired in it |
| `BillingJobs.ThirtyThreeDaysIsExact` | src/models/subscription.model.js:170-186 | a tick on the 33rd day after a period that ended on the first of a 28-day month rolls it forward and finds the new period due for a warning, exactly when none was sent for it yet |
| `BillingJobs.TiersFirstSkipsSeats` | src/controllers/admin.controller.js:392-401 | in the other order a due seat decrease stays pending for the whole new period |
| `BillingJobs.LandedPaymentStaysInFlight` | src/services/subscription.service.js:1551-1563 | the payment behind a landed interval change is stamped exactly when its invoice was linked; unstamped it stays in flight and blocks the next tier change |
| `BillingQuota.ResetKeepsInv` | src/services/tenant-quota.service.js:146-158 | rolling over ended quota periods keeps the invariant |
| `BillingQuota.QuotaJobAligns` | src/controllers/admin.controller.js:436-440 | after reset and resync every ACTIVE subscription has a current quota period equal to its billing period, and the invariant is kept |
| `BillingQuota.PromotionStartsClean` | src/services/subscription.service.js:1795-1826 | promotion opens a whole billing period and an empty, equal quota period from now, and moves exactly the newest verified payment with a period to it |
| `BillingRuns.PromotionKeepsInv` | src/services/subscription.service.js:1795-1826 | promotion keeps the billing invariant |
| `BillingRuns.FreshMeetsInv` | src/services/tenant-quota.service.js:40-44 | newly registered tenants satisfy the invariant |
| `BillingRuns.StepKeepsInv` | src/services/subscription.service.js:100-1709 | every request, review, refund, job and promotion keeps the invariant |
| `BillingRuns.LiveReviewIsSafe` | src/services/subscription.service.js:998-1040 | verifying a payment of a live subscription is always safe, a renewal of an ACTIVE one |
| `BillingRuns.RunKeepsInv` | src/services/subscription.service.js:100-1709 | the invariant holds in every state of every run |
| `BillingPeriods.YearlyMoveIsNeverFree` | src/services/subscription.service.js:361-409 | the zero-payment branch of the monthly-to-yearly move is never taken |
| `BillingPeriods.StepAdvances` | src/services/subscription.service.js:1285-1316 | every step that neither restarts nor reverses the clock leaves a period alone or opens the next one at its end |
| `BillingPeriods.PeriodsTile` | src/services/subscription.service.js:1513-1550 | along every run, whatever the delays of reviews and jobs, the periods of a subscription follow each other without a gap |
| `BillingPeriods.TilesCoverOnce` | src/services/subscription.service.js:1285-1316 | every instant from the first start to the last end lies in exactly one period |
| `BillingPeriods.FollowsSpan` | src/services/subscription.service.js:61-63 | each period starts at the previous end, monthly ones lasting 28 to 31 days, yearly ones 365 or 366 |
| `BillingPeriods.MonthlyPeriodsDrift` | src/services/subscription.service.js:1285-1316 | along an all-monthly chain the day of the month never rises and never falls below the 28th or the first day |
| `BillingRefunds.ApplyOne` | src/services/subscription.service.js:1052-1085 | an applied payment keeps the snapshot of what it changed |
| `BillingRefunds.RefundOne` | src/services/subscription.service.js:1432-1501 | a refund restores the whole snapshot, the seats only for a seat change, and clears scheduled tier changes |
| `BillingRefunds.RefundsUndoApplications` | src/services/subscription.service.js:1052-1085 | any number of payments applied and refunded last first gives back tier, interval, period, status, tenant tier and seats; a first payment ends CANCELLED |
| `BillingRefunds.RowIsRestored` | src/services/subscription.service.js:1432-1501 | the subscription row itself is back exactly when nothing had been scheduled on it |
| `BillingService.Service.ApplyInitialPayment` | src/services/subscription.service.js:1090-1144 | the writes in their order leave the specified tables |
| `BillingService.Service.ApplyTierChangePayment` | src/services/subscription.service.js:1166-1254 | all three branches leave the specified tables |
| `BillingService.Service.ApplyRenewalPayment` | src/services/subscription.service.js:1285-1316 | the writes leave the specified tables |
| `BillingService.Service.ApplyVerifiedPayment` | src/services/subscription.service.js:1073-1085 | the snapshot is taken before the branch it protects changes anything |
| `BillingService.Service.ReviewPayment` | src/services/subscription.service.js:998-1040 | both decisions leave the specified tables |
| `BillingService.Service.RefundPayment` | src/services/subscription.service.js:1432-1501 | refusals change nothing; a refund leaves the specified tables |
| `BillingService.Service.RequestTierChange` | src/services/subscription.service.js:184-500 | each refusal, the free downgrade, the free upgrade and the charges, as specified |
| `BillingService.Service.ApplyScheduledSeatChanges` | src/services/subscription.service.js:1589-1602 | the loop over due rows is the specified pass |
| `BillingService.Service.ApplyScheduledTierChanges` | src/services/subscription.service.js:1513-1576 | the loop over due rows is the specified pass |
| `BillingService.Service.ProcessDueRenewals` | src/services/subscription.service.js:1614-1637 | reminders, warnings and expiries are the specified passes in this order |
| `BillingService.Service.RunSubscriptionJobs` | src/controllers/admin.controller.js:391-406 | the job is a tick: seats, tiers, reminders, warnings, expiries |
| `BillingService.Service.ResetDueQuotaPeriods` | src/services/tenant-quota.service.js:146-158 | the loop rolls over exactly the ended current periods |
| `BillingService.Service.ResyncFromSubscriptions` | src/services/tenant-quota.service.js:118-127 | the loop realigns exactly the misaligned current periods |
| `BillingService.Service.RunQuotaJobs` | src/controllers/admin.controller.js:436-440 | the job is reset, then resync |
| `OutboxDocuments.StepMoves` | src/constants/document-state-machine.js:5-24 | every step moves a document by at most one legal edge and logs it with the event the code writes for that edge; key and sequential stay, the authorization changes only on the way into AUTHORIZED |
| `OutboxDocuments.EveryLogReplays` | src/services/document-transmission.service.js:45-254 | in every run a log replays to the status of its document, with one SENT for each earlier entry to PENDING_SEND and at most one authorization |
| `OutboxDocuments.LogCounts` | src/services/document-transmission.service.js:45-254 | a replaying log answers every entry to PENDING_SEND by exactly one SENT, the present one excepted, and enters AUTHORIZED once or never |
| `OutboxDocuments.IdentityIsPermanent` | src/models/document.model.js:12-22 | access key and sequential never change; from AUTHORIZED on only voiding is possible and the authorization stays |
| `OutboxDocuments.AuthorizedOnlyOnce` | src/services/document-transmission.service.js:174-190 | no authorization is ever written except by the one entry into AUTHORIZED |
| `OutboxDocuments.RedeliveryChangesNothing` | src/services/pending-effect.service.js:103-168 | once a message has moved its document on, delivering it any number of times, with any answers, late notes and late marks, while other documents do anything, changes neither the document nor its log |
| `OutboxDocuments.FinishedMovesOn` | src/services/document-transmission.service.js:45-225 | a delivery that finishes leaves its document in a status its kind has no more work in, and its row DONE |
| `OutboxAnswers.StepBecomes` | src/services/document-transmission.service.js:45-254 | every step does to every document and its log exactly what the request or the answer says, column by column; of an authorization each part SRI returned is stored in its own column and a part it did not return stays |
| `OutboxAnswers.CreatedAsAsked` | src/models/document.model.js:12-22 | a document appears only by its creation, SIGNED, as it was asked for and unauthorized |
| `OutboxAnswers.EveryEdgeIsTaken` | src/constants/document-state-machine.js:5-24 | every edge of the state machine is taken by some step, so that with StepMoves they are exactly the moves made |
| `OutboxAnswers.RequestsOpenRows` | src/services/document-transmission.service.js:227-282 | which row a request opens: a send row, or an authorization row unless one is open, only for a document in the right status |
| `OutboxAnswers.AuthorizationIsTheAnswer` | src/services/document-transmission.service.js:174-190 | in every run from the empty system a document is AUTHORIZED or VOIDED exactly when an authorization by SRI reached it while it waited, and holds exactly the number, date and XML of the first one; before, nothing of any |
| `OutboxAnswers.OutcomesExactly` | src/services/document-transmission.service.js:45-225 | exactly when a handler finishes, asks again, is overtaken or fails; an answer that SRI is still processing is no failure |
| `OutboxRows.StepKeepsSound` | src/models/pending-effect.model.js:20-45 | at the finest interleaving at most one open row has a given dedup key |
| `OutboxRows.LiveStays` | src/models/pending-effect.model.js:115-163 | while a document awaits an answer no step takes away a row that will ask for it: no late mark, no late note, no delivery |
| `OutboxRows.OutcomeMeans` | src/services/pending-effect.service.js:29-31 | a handler answers benignly exactly when its document is not in the status it works on, and finishes only by moving it on |
| `OutboxCoverage.SendAlwaysCovered` | src/services/document-transmission.service.js:236-254 | in every run, however late marks and notes come, a PENDING_SEND document has a send row that is not DONE and will not be made DONE by an outstanding note |
| `OutboxCoverage.StepKeepsAuthorizeCovered` | src/services/document-transmission.service.js:98-112 | a RECEIVED document keeps a live authorization row across a step exactly when the step does not find, by its key, a row an outstanding note is about to make DONE |
| `OutboxCoverage.AuthorizeCoveredExactly` | src/services/document-transmission.service.js:98-112 | over whole runs RECEIVED documents are covered all along exactly when no delivery hits such a row |
| `OutboxCoverage.PromptRunsStayCovered` | src/services/pending-effect.service.js:158-167 | when failures are recorded in the delivery that met them, marks may be late and messages duplicated, lost and reordered: no waiting document is ever uncovered |
| `OutboxCoverage.NoDeadEnd` | src/services/document-transmission.service.js:294-311 | from a covered waiting document a retry if its row is FAILED, one sweep and one delivery lead wherever the answer of SRI leads |
| `OutboxCoverage.PendingSendIsNeverStuck` | src/services/document-transmission.service.js:227-254 | in every run a PENDING_SEND document is covered and can be led out |
| `OutboxCoverage.ReceivedIsNeverStuck` | src/services/document-transmission.service.js:98-112 | in every run that records failures at once a RECEIVED document is covered and can be led out |
| `OutboxBudget.StepKeepsBudget` | src/services/pending-effect.service.js:164-165 | at the finest interleaving, failure records still outstanding included, a step keeps open rows with attempts left and FAILED rows with none exactly when it is no late mark that reopens a FAILED row |
| `OutboxBudget.WithinBudgetExactly` | src/services/pending-effect.service.js:138-167 | over whole runs every row stays within its budget all along exactly when no mark reopens a FAILED row, however late failures are recorded |
| `OutboxBudget.FailedIsLeftExactly` | src/models/pending-effect.model.js:115-163 | which steps take a row out of FAILED: its reset or a late mark when no open row has its key, and exactly those late failure records that are benign or still below the maximum with no open row of that key |
| `OutboxBudget.DoneIsLeftExactly` | src/models/pending-effect.model.js:126-163 | which steps take a row out of DONE: a late mark when no open row has its key, or a late record of a failure, likewise or as the last one allowed |
| `OutboxBudget.FailuresAreCountedExactly` | src/services/pending-effect.service.js:145-167 | over whole runs each failure of a handler is counted all along exactly when each record written still holds the attempts of its row, none is refused or lost, and the row is not reset |
| `OutboxBudget.FailuresAreBounded` | src/services/pending-effect.service.js:138-167 | so in every such run without a mark on a FAILED row, records written late or not: once all are written the row has counted each failure of its handler, at most the attempts it had left |
| `OutboxBudget.PromptRunsCount` | src/services/pending-effect.service.js:138-167 | when neither marks nor records come late that asks nothing but that the row is not reset |
| `OutboxRaces.LateMarkReopens` | src/models/pending-effect.model.js:126-132 | a mark that comes late reopens a DONE or FAILED row exactly when no open row has its key |
| `OutboxRaces.LateNoteCounts` | src/services/pending-effect.service.js:158-166 | a failure recorded late, whatever its row has become, is counted exactly when nothing was counted since its delivery and the unique index lets the row be written |
| `OutboxRaces.ALateNoteRevivesAFailedRow` | src/services/pending-effect.service.js:145-167 | for every maximum above one a run from the empty system, without a reset or a mark, whose late failure record takes a FAILED row back to open with one attempt counted |
| `OutboxRaces.LateNotesLiftTheBound` | src/services/pending-effect.service.js:145-167 | runs from the empty system in which the handler of one row fails any number of times, records coming late |
| `OutboxRaces.ALateNoteStrandsADocument` | src/services/pending-effect.service.js:147-162 | a concrete run reaches a RECEIVED document all of whose rows are DONE |
| `OutboxService.Service.ReconcilePendingEffects` | src/services/queue-reconciliation.service.js:25-62 | the loop republishes and marks exactly the stale rows whose publish succeeds, and counts them |
| `OutboxService.Service.SendToSri` | src/services/document-transmission.service.js:45-119 | each answer leaves the specified tables and outcome |
| `OutboxService.Service.CheckAuthorization` | src/services/document-transmission.service.js:127-225 | each answer leaves the specified tables and outcome; only the parts SRI returned are written |
| `OutboxService.Service.ProcessEffect` | src/services/pending-effect.service.js:103-168 | claim, handler and settling are one specified delivery |
| `CreationLocks.CommittedIsSerial` | src/services/document-creation.service.js:66-181 | whatever the interleaving of statements and rollbacks, the committed tables are those left by running the committed requests alone in commit order |
| `CreationLocks.InstallIsSerial` | src/services/sequential.service.js:17-60 | what a complete transaction installs is what it would do alone at its commit, its locks having kept all it read |
| `CreationLocks.StepKeepsInv` | src/services/sequential.service.js:17-60 | no two transactions ever hold the same counter, quota row or idempotency key |
| `CreationLocks.OnlyCommitsShow` | src/services/document-creation.service.js:170-178 | a rolled-back creation leaves every committed table as it was |
| `CreationLocks.WaitingClimbs` | src/services/document-creation.service.js:73-88 | whoever is waited for and waits in turn, waits at a later table |
| `CreationLocks.NoDeadlock` | src/services/document-creation.service.js:66-181 | in every run some transaction is not waiting, and can run its next statement exactly when the tables do not refuse it |
| `CreationLedger.SerialKeepsIncreasing` | src/services/sequential.service.js:78-167 | numbers stay increasing in commit order exactly when no counter is seeded at or below a number it has issued; setting the next number never breaks it |
| `CreationLedger.SeedingTwiceRepeatsANumber` | src/services/sequential.service.js:78-88 | seeding any counter twice with one start issues that number to two documents |
| `CreationLedger.NumbersIncrease` | src/services/sequential.service.js:17-60 | over whole logs the numbers of a counter are distinct and increasing in commit order |
| `CreationLedger.NumbersHaveNoGaps` | src/services/sequential.service.js:17-60 | while nobody moves a counter its documents are numbered on from its value without a gap |
| `CreationLedger.SetNextIsNext` | src/services/sequential.service.js:124-167 | after setting the next number the first document committed gets exactly it |
| `CreationLedger.KeysAreUsedOnce` | src/services/document-creation.service.js:137-158 | one idempotency key has at most one document |
| `CreationLedger.QuotaCountsDocuments` | src/models/tenant-quota.model.js:65-74 | a quota row counts exactly the committed production documents charged to it |
| `CreationLedger.SerialQuotas` | src/models/tenant-quota.model.js:65-119 | what each committed request makes of every quota row: one more counted, closed, or another cap; a rollover also opens a row with the cap it was given and nothing counted |
| `CreationLedger.RefusedExactly` | src/services/sequential.service.js:124-167 | exactly when each kind of request is refused and why |
| `CreationLedger.SerialKeepsWithinCaps` | src/models/tenant-quota.model.js:65-74 | no period exceeds its cap, and only a cap lowered below what is used can change that |
| `CreationLedger.FullPeriodRefuses` | src/services/tenant-quota.service.js:49-52 | a production creation is refused for quota exactly when no current period has room |
| `CreationLedger.InterleavedNumbersAndKeys` | src/services/document-creation.service.js:66-181 | numbers, keys and counts for the interleaved transactions together |
| `CreationService.Service.Create` | src/services/document-creation.service.js:27-184 | each answer, and the tables: one serial transaction when a document is made, otherwise nothing of its own |
| `CreationService.RepeatsAreReplayed` | src/services/document-creation.service.js:36-46 | repeating a request with its key replays its document for the same body and is refused for another |
| `CreationService.AnswersExactly` | src/services/document-creation.service.js:27-184 | exactly when each answer is given, and what document a new one is made as |
| `CreationService.RaceLosersAreNotCompared` | src/services/document-creation.service.js:172-177 | a request is given a document made from another body exactly when one with its key was committed between its look-up and its transaction |
| `CreationService.ARaceLoserGetsTheOtherDocument` | src/services/document-creation.service.js:172-177 | two requests with one key and different bodies looked up at once: the second is answered with the document of the first |
| `Pricing.FrozenExactly` | src/services/pricing.service.js:77-97 | the prices in effect on a date can no longer be changed by anybody exactly once the date is closer than the notice floor |
| `Pricing.ThawedUntilTheFloor` | src/services/pricing.service.js:77-97 | until then a draft made and published now changes them |
| `Pricing.ResolvesTheSame` | src/models/tier-price.model.js:57-66 | at any two times later than the date less the floor a date resolves to the same prices |
| `Pricing.RenewalUsesANoticedPrice` | src/services/subscription.service.js:1639-1652 | a renewal opened in the reminder window uses a price published at least the floor before its period, and resolves alike however late it is opened |
| `Pricing.RunKeepsHistory` | src/models/tier-price.model.js:16-34 | published prices never change, and later ones give their notice |
| `Pricing.PublishOutcome` | src/services/pricing.service.js:77-97 | a publication goes through exactly for a draft with no fewer days asked than the floor, keeps its item and amount, and takes effect after the days asked, or the floor |
| `Pricing.FindCurrentResolves` | src/models/seat-price.model.js:44-53 | resolving finds a newest price in effect, exactly when there is one |
| `Pricing.PriceService.PublishPrice` | src/services/pricing.service.js:77-97 | refuses short notice and published prices; otherwise sets the effective date |
| `Pricing.PriceService.GetPriceAsOf` | src/services/pricing.service.js:34-41 | a newest price in effect, or none |
| `CardsLedger.StepKeepsBalance` | src/services/payphone-payment.service.js:291-323 | applications of a payment are its refunds plus one while VERIFIED, kept by every step except exactly a review of a VERIFIED payment |
| `CardsLedger.AppliedAtMostOnce` | src/services/payphone-payment.service.js:172-396 | along every run of confirmations, replays, crashes, sweeps, reviews and refunds a payment is applied at most once more than it is refunded, and whatever is stamped is VERIFIED or refunded since |
| `CardsLedger.OnlyApprovedGrants` | src/services/payphone-payment.service.js:150-168 | only a review, or the second phase or sweep of an attempt answered or read as APPROVED, applies a payment: other outcomes grant nothing |
| `CardsLedger.OutcomeIsFinal` | src/services/payphone-payment.service.js:186-314 | a stored outcome stays, except exactly through a write decided before: a recovery write (PENDING, the stamp kept), a sweep that read the attempt earlier, or the stamp of an approval under way |
| `CardsLedger.RecoveriesAreDue` | src/services/payphone-payment.service.js:180-281 | a recovery write becomes due exactly when a confirmation fails after claiming the attempt with an id at hand, whatever the attempt holds: on ownership, at the gateway, or by a look-up, write or commit that throws |
| `CardsLedger.OutcomesStayInRuns` | src/services/payphone-payment.service.js:172-396 | over every run in which no confirmation fails after claiming a settled attempt, its outcome stays through all replays, sweeps and applications |
| `CardsLedger.AFailedReplayTakesTheOutcomeBack` | src/services/payphone-payment.service.js:262-281 | after any confirmation that failed so, the recovery write puts PENDING over whatever outcome is stored |
| `CardsLedger.AFailedReplayUndoesApproval` | src/services/payphone-payment.service.js:192-281 | a run from the empty system: the owner replays an APPROVED, applied attempt, the look-up throws, and the attempt is PENDING again |
| `CardsLedger.ALateSweepExpiresACharge` | src/services/payphone-payment.service.js:351-380 | a run from the empty system: a sweep reads a PENDING attempt, its return page stores APPROVED, the sweep writes EXPIRED, and neither sweep will apply the charge |
| `CardsLedger.OutcomeExactly` | src/services/payphone-payment.service.js:229-260 | when each outcome is stored, DUPLICATE exactly when the payment is VERIFIED already |
| `CardsLedger.Sweep1Resolves` | src/services/payphone-payment.service.js:347-380 | after sweep 1 a stale attempt is PENDING exactly when the gateway told its id and cannot be reached |
| `CardsLedger.ReconciliationCompletes` | src/services/payphone-payment.service.js:347-396 | a completed reconciliation leaves every APPROVED attempt stamped, its payment VERIFIED unless refunded |
| `CardsLedger.TwoTabsGoUnflagged` | src/services/payphone-payment.service.js:251-260 | two sessions confirmed before either is applied: both captured, one application, no DUPLICATE |
| `CardsLedger.AReplayAppliesAfterARefund` | src/services/payphone-payment.service.js:192-196 | replaying the return page after a refund applies the payment again |
| `CardsLedger.SecondPhaseGrantsExactly` | src/services/payphone-payment.service.js:291-323 | the second phase applies exactly when the payment is not VERIFIED, and always stamps |
| `CardAttempts.SessionOutcome` | src/services/payphone-payment.service.js:72-139 | a session is opened exactly for an unsettled payment of at least a dollar with fewer than ten open attempts, with each refusal, and asks for the whole total |
| `CardAttempts.StepAttempts` | src/services/payphone-payment.service.js:172-396 | what every step makes of every attempt, field by field: status, gateway id, confirmation and stamp |
| `CardAttempts.StepPayments` | src/services/payphone-payment.service.js:291-323 | what every step makes of every payment: it is granted by its attempts at most once while VERIFIED |
| `CardAttempts.ChargesAreOwed` | src/services/payphone-payment.service.js:121-125 | in every run each attempt asks for exactly the total of its payment, and the amounts of a payment never change |
| `CardAttempts.Sweep1Reports` | src/services/payphone-payment.service.js:347-380 | sweep 1 reports as many as it settled |
| `CardAttempts.Sweep2Reports` | src/services/payphone-payment.service.js:382-395 | sweep 2 reports as many as it applied |
| `CardService.Service.CreateSession` | src/services/payphone-payment.service.js:72-139 | each refusal, or a fresh PENDING attempt |
| `CardService.Service.ResolveOutcome` | src/services/payphone-payment.service.js:172-286 | phase one for every status and every failure after the claim, then its recovery write, done or failed too |
| `CardService.Service.ApplyApprovedTransaction` | src/services/payphone-payment.service.js:291-323 | phase two as specified |
| `CardService.Service.ConfirmTransaction` | src/services/payphone-payment.service.js:150-168 | both phases, or only the first when the process stops in between |
| `CardService.Service.SettleStale` | src/services/payphone-payment.service.js:351-380 | the loop of sweep 1 and its count |
| `CardService.Service.ApplyUnapplied` | src/services/payphone-payment.service.js:382-393 | the loop of sweep 2 and its count |
| `CardService.Service.ReconcileStaleTransactions` | src/services/payphone-payment.service.js:347-396 | both sweeps in order |
| `AccessKey.GenerateModule11Digit` | helpers/access-key-generator.js:34-49 | the loop from the right computes the digit that, with weight 1, completes the weighted sum to a multiple of 11, and 1 where that would take a ten |
| `AccessKey.CheckDigitIs` | helpers/access-key-generator.js:44-48 | one digit does that and no other |
| `AccessKey.SixWeights` | helpers/access-key-generator.js:39-43 | the weighted sum of six more digits at the right: weights 2 to 7 from the right, and again |
| `AccessKey.SameDigitExactly` | helpers/access-key-generator.js:34-49 | two bodies share a digit exactly when their sums agree modulo 11 or have residues 1 and 10 |
| `AccessKey.OneWrongDigit` | helpers/access-key-generator.js:34-49 | one changed digit escapes exactly at that pair of residues |
| `AccessKey.AdjacentSwap` | helpers/access-key-generator.js:34-49 | two unequal neighbours swapped escape exactly at that pair of residues |
| `AccessKey.AnErrorGoesUnseen` | helpers/access-key-generator.js:34-49 | 48-digit bodies, one with a wrong digit and one with two neighbours swapped, that keep their check digit |
| `AccessKey.KeysDecode` | helpers/access-key-generator.js:15-32 | a key has 49 digits exactly for sequentials below 10^9; then every field stands at its place, the sequential in nine digits, all read back, and the last digit completes the weighted sum of the others |
| `AccessKey.GeneratesUnless` | helpers/access-key-generator.js:10-26 | generation fails exactly for a missing RUC, document type 00 or emission type 0 |
| `AccessKey.KeysAreUnique` | src/services/access-key.service.js:5-13 | two keys are equal exactly when all their fields are |
| `XmlText.UnescapeEscape` | src/services/sri.service.js:49-59 | unescaping gives back every text escaped with the five predefined entities |
| `XmlText.UnescapeIsOneDecodeExactly` | src/services/sri.service.js:49-59 | on well-formed text the seven passes are one left-to-right decode exactly when no stretch that starts at a numeric ampersand denotes a reference of a later pass: "&amp;", or a hexadecimal one written without hexadecimal references |
| `XmlText.UnescapeIsOneDecode` | src/services/sri.service.js:49-59 | so always without a numeric reference to the ampersand |
| `XmlText.ALastAmpersandIsFine` | src/services/sri.service.js:49-59 | and with one at the very end |
| `XmlText.NumericAmpIsDecodedTwice` | src/services/sri.service.js:49-59 | a numeric ampersand followed by "amp;" is decoded twice |
| `XmlText.SafeExactly` | src/services/sri.service.js:49-59 | a reference decodes alike in every context of other safe references exactly when it is no numeric ampersand |
| `Signature.RecoversWhatWasDigested` | scripts/verify-signature.js:116-120 | stripping the signature as the verifier does gives exactly the body that was digested, for every signable document and every block, dollars or not |
| `Signature.NormaliseIs` | helpers/signer.js:116-116 | normalising drops tabs and carriage returns, character by character, and keeps the rest in order |
| `Signature.PatternsExpand` | helpers/signer.js:245-247 | what each dollar pattern of a replacement stands for, wherever it stands; any other dollar stays |
| `Signature.IntactExactly` | helpers/signer.js:245-247 | every document keeps the block as it was built exactly when no dollar in it is a replacement pattern |
| `Signature.AnIssuerNameBreaksItsBlock` | helpers/signer.js:245-247 | a block whose issuer name holds "$&" is in no document as it was built: the last tag of the document stands there instead |
| `Signature.BlockIsRemoved` | scripts/verify-signature.js:116-118 | a block put into text without signature tags is what greedy removal takes out, with the white space after it |
| `Signature.Sign` | helpers/signer.js:114-122 | what is digested is what the verifier recovers from what is returned |
| `TaxTotals.GroupedIsFlat` | src/builders/invoice.builder.js:15-31 | the tax of the buckets sums to the tax of every item and tax |
| `TaxTotals.SubtotalIsGrossLessDiscounts` | src/builders/invoice.builder.js:15-19 | the subtotal and the discounts together are the sum of quantity times price |
| `TaxTotals.TaxedAreLines` | src/models/document-line-item.model.js:8-19 | a line with its taxes is its base and the sum of the percentages of it |
| `TaxTotals.BucketsFromItems` | src/builders/invoice.builder.js:20-60 | a bucket holds the bases of the items under its codes and, at one rate, that percentage of them; printed with its two codes, base and tax in their own fields, each rounded once |
| `TaxTotals.CentsAreNearest` | src/builders/invoice.builder.js:44-66 | two decimals: the nearest cent, halves away from zero |
| `TaxTotals.BucketsGroup` | src/builders/invoice.builder.js:20-28 | each tax and rate code that occurs has one bucket holding exactly its sums, and no other has one |
| `TaxTotals.KeysTellCodesApart` | src/builders/invoice.builder.js:22-22 | bucket keys tell codes apart as long as tax codes hold no dash |
| `TaxTotals.GrandTotalIsSumOfLines` | src/models/document-line-item.model.js:8-19 | the total of a document from its buckets is the sum of its unrounded stored lines |
| `TaxTotals.RoundedLinesVersusTotal` | src/models/document-line-item.model.js:8-38 | rounded lines sum to the rounded total within (n+1)/2 cents |
| `TaxTotals.Accumulate` | src/builders/credit-note.builder.js:11-27 | the nested loops compute the subtotal and the buckets of all entries |
| `TaxTotals.InvoiceBuilder.BuildInfoFactura` | src/builders/invoice.builder.js:8-71 | subtotal (gross less discounts), discount, buckets and total (bases with the percentages of their taxes), each rounded once |
| `TaxTotals.CreditNoteBuilder.BuildInfoNotaCredito` | src/builders/credit-note.builder.js:8-61 | subtotal (gross less discounts), buckets and total (bases with the percentages of their taxes), each rounded once |
| `TaxTotals.BulkCreate` | src/models/document-line-item.model.js:1-38 | one row an item: its rounded base, and its rounded base with the percentages of its taxes |
| `TaxTotals.BuildSubtotalSinImpuestos` | helpers/ride-builder.js:597-649 | sums the base of every item once for each of its IVA entries |
| `TaxTotals.PrintedSubtotalExactly` | helpers/ride-builder.js:597-649 | the printed subtotal is that of the builder when each item that costs anything has one IVA entry, and only then unless items with several make up for items with none; with none missing it is never smaller |

## Left out

- The sandbox billing variants (`src/services/subscription.service.js:506-571`, 719-769): they are discarded at promotion, of which the reset is modelled.
- Stops between the writes of one billing operation: every billing operation, every document handler and the second card phase is one step; a stop inside one leaves its writes half done in the code.
- Floating point: amounts are exact, and rounded once where the code rounds.
- The order of query results: every order is allowed, except that the first sweep of card attempts and the counters run in creation order.
- Linking an invoice picks the oldest unlinked payment in the code; here an operator's step marks any payment invoiced.
- Operators' direct cancellation of a subscription and tier overrides: administration outside the billing rules.
- Transactions that fail as a whole because one statement failed inside them, other than by rolling back.
- A creation that races a quota rollover and is refused although the new period has room: a rollback in the model.
- The inside of a RETURNED document's messages, stored SRI responses, e-mail effects, webhooks and notifications: they change none of the modelled rows.
- The batch limit of the reconciliation sweep: a sweep takes any list of stale rows.
- Numeric references of more than fifteen digits, whose value the code takes from a double.
- Effective dates are set with the server's local calendar in the code; days are 24 hours here.
- Price-change announcements: a list of who was told, which no price depends on.
- An idempotency key another issuer has used: the unique index refuses it and the look-up, under row-level security, does not see it, an error in the code.
- Row-level security, authentication, validators, controllers other than the two jobs, PDF layout and network clients.
- XmlText.UnescapeIsOneDecodeExactly: holds on well-formed text; text with a bare ampersand is decoded by the passes but has no one-decode meaning to compare with.
- TaxTotals.KeysTellCodesApart: for codes without a dash, the only ones the tax catalog has.
