# SettleFlow: verified model of the money core and its protocols

The project models the parts of SettleFlow that decide money and delivery, and proves what they guarantee.

* **Money core** (`money_*.dfy`, `ledger.dfy`, `settlement_policy.dfy`). The tables are one value; every database
  transaction (create, capture, refund, projection of an event, settlement run) is a function from tables to tables, and a
  run of the system is any sequence of transactions. Capture and refund events may be delivered late, repeatedly and in any
  order. `money_store.dfy` performs the same transactions in place, step by step, with rollback. The main result is that the
  ledger, the payments and the settlement tables agree as totals in every reachable state. `money_runs.dfy` says which runs
  settle and what they write, read off the tables before them; `money_collisions.dfy` which failures are tried again;
  `money_limits.dfy` where the promises of a run end. `money_commands.dfy` puts the commands behind idempotency keys: one key
  moves money at most once.
* **Amount tokens and member names** (`decimal.dfy`, `amount_token.dfy`, `key_scanner.dfy`). Exact conversion of JSON number
  tokens and the one-pass duplicate-name scanner, against the grammar of RFC 8259.
* **Reconciliation** (`reconciliation_*.dfy`). The matcher, its conservation laws, and the claim under which an import is
  completed once.
* **Protocols** (`idempotency.dfy`, `webhook_delivery.dfy`, `webhook_outcomes.dfy`, `webhook_endpoint.dfy`, `outbox_relay.dfy`,
  `inbox.dfy`, `event_delivery.dfy`, with `full_jitter.dfy` for their delays). Arbitrary clocks, crashes between any two
  transactions, late owners, lost acknowledgements.
* **Cache and error search** (`verification_cache.dfy`, `error_graph.dfy`).

How it is written: a transaction is a function, and the rules about a table are stated per row (`PaymentRow`, `ItemOk`,
`AdjustedOnce`, ...) so that proofs go row by row. Where the source updates fields or tables, a class performs the same
updates and each method is proved equal to its transaction function; the lemmas are about those functions and all their runs.

Some properties do not hold as first expected. Two of them fail in reachable states:

* A run that reports `moreEligible = false` may leave an eligible payment, because the candidate query skips locked rows
  (`NothingMoreEligible`). Runs of one stream wait for each other at the row of `settlement_streams`, so only the delivery
  of an unprocessed event can hold such a lock; `LockedPaymentIsNotReported` is a reachable case, and
  `LeftoversAwaitRefunds` gives the condition: with the refund events of the stream processed nothing is left.
* One payment whose fee is not below its gross (under 613 ETB or 26 USD minor units, `FeeBelowGross`) makes every run that
  reaches it fail as a whole (`RunCommits`, `SingleCaptureSettles`), and it blocks its stream until it is refunded in full
  (`StreamStaysBlocked`, `UnpayableStaysEligible`).

Two fail only for inputs of exported functions that the system does not produce:

* A token whose exponent has more than six significant digits is rejected even if its value is a small integer
  (`ConversionIsExact`, `LongExponentIsRejected`). Such a token has close to a million characters, far beyond the default
  body limit of the web framework, which `apps/api/src/main.ts` leaves in place; below 900,000 characters the conversion is
  exact without exception (`ConversionIsExactForRequests`).
* Platform rows that share a record key can be lost from the results (`SharedRecordKeyLosesRow`), exactly under the
  conditions of `RowLostExactlyWhen`, `NoRowLostExactlyWhen` and `SharedKeyFallsShort`. The platform reader keys rows by event
  type and a public identifier that is unique within it, so its rows are never lost (`ReaderRowsAreConserved`).

## Model

| member | source | states |
|---|---|---|
| MoneyTotals.LedgerAgreesAlways | packages/modules/settlements/src/prisma-settlement.repository.ts:425-500 | in every reachable state, per merchant and currency: merchant_payable is captured minus refunded over unbatched payments, less pending adjustments, less post-batch refunds whose event is not projected; provider clearing, fee revenue and settlement clearing equal the totals of payments and batches |
| MoneyTotals.RunKeepsLedger | packages/modules/settlements/src/settlement.service.ts:93-230 | a settlement posting moves the four accounts by exactly what the run takes out of unbatched payments and pending adjustments and puts into its batch |
| MoneyTotals.RefundKeepsLedger | packages/modules/payments/src/payment-intent.service.ts:543-592 | a refund lowers payable by its amount: through the held amount if the payment is unbatched, through a late refund if it is batched |
| MoneyTotals.ProjectMoves | packages/modules/settlements/src/prisma-settlement.repository.ts:458-499 | projecting a late refund turns it into a pending adjustment of the same amount, merchant and currency; any other projection moves no total |
| MoneyTheorems.RefundFate | packages/modules/settlements/src/prisma-settlement.repository.ts:482-499 | a refund of a batched payment is wholly inside the item, or on its way, or has its one adjustment of its own amount: exactly one of the three, with exactly one event |
| MoneyTheorems.ProjectionNeverAhead | packages/modules/settlements/src/prisma-settlement.repository.ts:430-481 | a projected refunded amount never exceeds the payment's own, and the projected captured amount equals it |
| MoneyTheorems.DeliveryConverges | packages/modules/settlements/src/prisma-settlement.repository.ts:425-500 | once all events of a payment were delivered, in any order and number, its position is exact and every post-batch refund has its adjustment; refund-before-capture included |
| MoneySettlement.ProjectionAlwaysCommits | packages/modules/settlements/src/settlement-projection.service.ts:15-75 | for an emitted lifecycle event none of the projection's failure branches is reachable; a repeated delivery changes nothing |
| MoneySettlement.ExecutionKeepsRows | packages/modules/settlements/src/prisma-settlement.repository.ts:104-330 | every transaction keeps the row rules of payments, refunds, events, positions, items, adjustments, batches and postings, over every run of the system |
| MoneyEvidence.EvidenceAlwaysAddsUp | packages/modules/settlements/src/prisma-settlement.repository.ts:206-275 | stored batch totals and counts are those of the batch's own items and adjustments; payments equal their refund rows; refund events and items carry prefix sums; in every reachable state |
| MoneyTheorems.BatchIdentities | packages/modules/settlements/src/settlement.service.ts:186-206 | fee plus net is gross, gross is payment gross less adjustments, net and fee are at least 1, and all five stored aggregates match the batch's rows |
| MoneyTheorems.DoubleEntryAlways | packages/modules/ledger/src/ledger-posting.ts:12-96 | debits equal credits per merchant and currency, and provider clearing's debit balance is captured minus refunded |
| MoneyTheorems.PaymentStory | packages/modules/payments/src/prisma-payment-intent.repository.ts:196-295 | a payment's refunded amount is the sum of its refund rows, at most captured, and its status is determined by the two amounts |
| MoneyTheorems.RefundEventsCarryPrefixSums | packages/modules/payments/src/payment-intent.service.ts:496-600 | a refund event's cumulative amount is the sum of the payment's refunds up to it, and no two refunds of a payment carry the same one |
| MoneyTheorems.LaterRefundsCarryLargerSums | packages/modules/payments/src/payment-intent.service.ts:543-592 | over every run: a refund event emitted later carries a strictly larger cumulative amount than every earlier refund event of its payment |
| MoneyTheorems.ExternalReferencesAreUnique | packages/modules/payments/src/prisma-payment-intent.repository.ts:223-262 | no merchant ever has two payments or two refunds under one external reference |
| MoneyTheorems.CreateCommits | packages/modules/payments/src/prisma-payment-intent.repository.ts:114-150 | with fresh identifiers a creation commits exactly if the merchant has no payment under the reference; over every later run the payment keeps merchant, reference, currency and amount and is captured in full or not at all |
| MoneyTheorems.CaptureCommits | packages/modules/payments/src/payment-intent.service.ts:658-668 | in every reachable state a capture with fresh identifiers commits exactly if the payment is the merchant's, has the currency and exactly the amount, and nothing of it is captured yet; no reference conflict and no missed guarded update is reachable |
| MoneyTheorems.CaptureAnswers | packages/modules/payments/src/payment-intent.service.ts:658-668 | the problem each other capture is answered with, by the first of these conditions that fails |
| MoneyTheorems.RefundCommits | packages/modules/payments/src/payment-intent.service.ts:670-682 | in every reachable state a refund with fresh identifiers commits exactly if the payment is the merchant's and has the currency, the amount is at least 1 and at most captured minus refunded, and the merchant has no refund under the reference |
| MoneyTheorems.RefundAnswers | packages/modules/payments/src/payment-intent.service.ts:670-682 | the problem each other refund is answered with: unknown payment, other currency, nothing left to refund, more than is left, used reference |
| MoneyInvariant.RefundAdditionIsExact | packages/modules/payments/src/prisma-payment-intent.repository.ts:269-295 | the plain number addition of applyRefund is exact under the refund check |
| MoneyInvariant.NumberAdditionRounds | packages/modules/payments/src/prisma-payment-intent.repository.ts:269-295 | number addition of two amounts: the sum up to 2^53, above it the even number next to it, on a tie the one divisible by four |
| MoneyTheorems.RunCommits | packages/modules/settlements/src/settlement.service.ts:130-206 | a run with fresh identifiers fails exactly if a candidate whose fee reaches its gross stands right after the representable prefix, or one page of adjustments exceeds the largest safe integer |
| MoneyRuns.RunSettlesExactlyWhen | packages/modules/settlements/src/settlement.service.ts:136-190 | in every reachable state a run that commits writes a batch exactly if the longest settleable prefix of its eligible candidates is not empty and pays more than its fees and the pending adjustments; otherwise it writes its own record and nothing else |
| MoneyRuns.CompletedRunWrites | packages/modules/settlements/src/prisma-settlement.repository.ts:206-275 | a run with a batch writes one item for each payment of that prefix and no other, settles the page of adjustments into the batch, and the batch and its event carry their totals |
| MoneyRuns.CandidatesAreTheEarliest | packages/modules/settlements/src/prisma-settlement.repository.ts:115-128 | in every reachable state the candidates of a run are the payments of the stream that became available before the cutoff, are in no batch, have something left after the delivered refunds and are not locked: all of them, or the 501 that became available first |
| MoneyRuns.AdjustmentsAreTheEarliest | packages/modules/settlements/src/prisma-settlement.repository.ts:145-162 | its adjustments are the pending ones of the stream: all of them, or the 501 of the earliest refunds |
| MoneyRuns.OldestPaymentsFirst | packages/modules/settlements/src/prisma-settlement.repository.ts:115-128 | a payment that a completed run could have taken and left became available after every payment it took |
| MoneyRuns.OldestAdjustmentsFirst | packages/modules/settlements/src/prisma-settlement.repository.ts:145-162 | an adjustment that stays pending is of a later refund than every adjustment the run settled |
| MoneyTheorems.PlanMeetsGuards | packages/modules/ledger/src/ledger.service.ts:155-165 | what a run settles always passes the guards of postSettlement and buildSettlementEntries |
| OperationalEvent.FinalizedEventsAccepted | packages/modules/eventing/src/settlement-reconciliation-event.contract.ts:96-113 | every settlement.finalized event ever emitted passes the numeric guards of the event contract, number addition included |
| OperationalEvent.CompletedEventsAccepted | packages/modules/eventing/src/settlement-reconciliation-event.contract.ts:141-153 | the one completion event of every completed import: its differences are safe integers, its counts add up to the results, and it passes the guards exactly while both counts are safe integers, so for every result list of up to 2^53 - 1 entries |
| OperationalEvent.AcceptedExactlyWhen | packages/modules/eventing/src/settlement-reconciliation-event.contract.ts:96-153 | the guards accept exactly events whose numbers are in range and add up exactly: the rounding of number addition hides no difference |
| MoneyTheorems.NothingMoreEligible | packages/modules/settlements/src/prisma-settlement.repository.ts:104-163 | after a run reports moreEligible = false no pending adjustment of the stream remains, and a truly eligible payment remains exactly if its position was locked by another transaction during the run |
| MoneyTheorems.MoreEligibleIsHonest | packages/modules/settlements/src/settlement.service.ts:166-223 | a run reports moreEligible = true only if a pending adjustment or a position the candidate query would select is left |
| MoneyLimits.LeftoversAwaitRefunds | packages/modules/settlements/src/prisma-settlement.repository.ts:104-163 | beside deliveries of unprocessed events: what a run that reports moreEligible = false leaves awaits a refund event, so with all refund events of the stream processed it leaves nothing eligible |
| MoneyLimits.LockedPaymentIsNotReported | packages/modules/settlements/src/prisma-settlement.repository.ts:115-128 | a reachable run beside the delivery of a refund of 300 reports nothing more although 700 of the payment are eligible |
| MoneyLimits.ReachedPaymentFailsRun | packages/modules/settlements/src/settlement.service.ts:141-147 | a run that reaches a payment whose fee is not below its gross fails, whatever identifiers it draws |
| MoneyLimits.EarliestIsReached | packages/modules/settlements/src/prisma-settlement.repository.ts:115-128 | a run reaches the first eligible payment that is not locked |
| MoneyLimits.UnpayableStaysEligible | packages/modules/settlements/src/settlement.service.ts:136-155 | such a payment is never in any batch and stays eligible until it is refunded in full |
| MoneyLimits.StreamStaysBlocked | packages/modules/settlements/src/settlement.service.ts:136-155 | over every run: from then on each settlement run of the stream with that cutoff or a later one that reaches the payment fails and changes nothing, until it is refunded in full |
| MoneyLimits.SingleCaptureSettles | packages/modules/settlements/src/settlement.service.ts:141-206 | reachable for every amount: a USD payment captured and projected alone in its stream settles exactly from 26 minor units upwards, with one batch and one item of its gross, fee and net; below, the run fails |
| MoneyTheorems.CompletedRunProgresses | packages/modules/settlements/src/settlement.service.ts:206-230 | a completed run takes at least one payment and lowers the number of eligible unbatched payments by exactly its item count |
| MoneyTheorems.EvidenceIsForever | packages/modules/settlements/src/prisma-settlement.repository.ts:206-275 | runs, items, batches, refunds, events and postings never change; adjustments only go from pending to settled once; so no payment is in two batches and no adjustment settled twice |
| MoneySelection.SelectionExists | packages/modules/settlements/src/prisma-settlement.repository.ts:115-128 | in every state and whatever is locked, the two queries of a run have a result |
| MoneySelection.SelectionIsUnique | packages/modules/settlements/src/prisma-settlement.repository.ts:115-128 | and the candidate page is a function of the tables and the locks |
| SettlementPolicy.AccumulateItems | packages/modules/settlements/src/settlement.service.ts:136-155 | the accumulation loop, with the gross and fee totals of the prefix it takes |
| SettlementPolicy.TakesLongestPrefix | packages/modules/settlements/src/settlement.service.ts:141-155 | it takes the longest prefix with representable sums, non-empty if the first candidate is representable, and fails exactly if the candidate after that prefix cannot pay its fee |
| SettlementPolicy.FeeBelowGross | packages/modules/settlements/src/settlement-policy.ts:20-34 | the fee stays below the gross exactly from 613 (ETB) and 26 (USD) minor units upwards |
| SettlementPolicy.FeeRounding | packages/modules/settlements/src/settlement-policy.ts:20-34 | over n items of gross G: G - 49n <= 50 * (fee - n * flat) <= G |
| MoneyStore.Store.Create | packages/modules/payments/src/prisma-payment-intent.repository.ts:114-150 | creates the payment and its event, or rolls back on a collision or reference conflict |
| MoneyStore.Store.Capture | packages/modules/payments/src/payment-intent.service.ts:415-449 | lock, check, post, guarded update, event; the new tables are the capture transaction's, a failure restores all tables |
| MoneyStore.Store.Refund | packages/modules/payments/src/payment-intent.service.ts:543-592 | lock, check, refund row, posting, guarded update, event; a failure restores all tables |
| MoneyStore.Store.Deliver | packages/modules/settlements/src/settlement-projection.service.ts:15-75 | inbox row and projection in one transaction, restored on failure |
| MoneyStore.Store.ProjectEvent | packages/modules/settlements/src/prisma-settlement.repository.ts:425-500 | upsert of the position, the greatest-amount update, and the adjustment of a post-batch refund |
| MoneyStore.Store.FilterCandidates | packages/modules/settlements/src/settlement.service.ts:104-128 | the authoritative re-check of each locked candidate |
| MoneyStore.Store.PrepareRun | packages/modules/settlements/src/settlement.service.ts:93-190 | the plan of a run: re-check, prefix, totals and adjustments |
| MoneyStore.Store.PersistSettlement | packages/modules/settlements/src/prisma-settlement.repository.ts:206-275 | batch, items and settled adjustments, or the constraint that rejects them |
| MoneyStore.Store.Settle | packages/modules/settlements/src/settlement.service.ts:69-262 | a run as one transaction: no-op, completed with all its evidence, or nothing |
| MoneyStore.Store.CaptureCommandLoop | packages/modules/payments/src/payment-intent.service.ts:413-493 | up to three attempts with fresh identifiers, any transactions of others between them; only a collision is retried |
| MoneyStore.Store.RefundCommandLoop | packages/modules/payments/src/payment-intent.service.ts:539-645 | the same for refunds |
| MoneyStore.Store.CreateCommandLoop | packages/modules/payments/src/payment-intent.service.ts:316-366 | the same for creation |
| MoneyStore.OneCommandOneEffect | packages/modules/payments/src/payment-intent.service.ts:316-366 | whatever others do between the attempts, a command leaves the tables of a run in which it takes at most one step: the first attempt that did not collide; it gives up exactly if all collided |
| MoneyCollisions.CreateIsTriedAgain | packages/modules/payments/src/payment-intent.service.ts:316-366 | a creation collides exactly if its payment identifier is taken, or its event identifier is and the reference is free |
| MoneyCollisions.CaptureIsTriedAgain | packages/modules/payments/src/payment-intent.service.ts:413-493 | in every reachable state a capture collides, and so is tried again, exactly if it would commit with fresh identifiers and one that it drew is taken |
| MoneyCollisions.RefundIsTriedAgain | packages/modules/payments/src/payment-intent.service.ts:539-645 | the same for refunds, whose refund identifier is compared before the reference |
| MoneyCollisions.RunIsTriedAgain | packages/modules/settlements/src/settlement.service.ts:69-262 | a settlement run with a new batch identifier that fails collides exactly if it would commit with fresh identifiers |
| MoneyCommands.OneKeyOnePosting | packages/modules/payments/src/payment-intent.service.ts:413-480 | over every interleaving of callers, takeovers, retries and crashes: the postings of the journal belong to different idempotency keys, each completed with a success, and each posting has the merchant, kind, currency and amount of its key's request |
| MoneyCommands.OneKeyOneEffect | packages/modules/idempotency/src/prisma-idempotency.repository.ts:222-267 | the money tables are those of a run in which no key appears twice, and a key appears exactly if its record is completed with a success; this covers creations and empty settlement runs, too |
| MoneyCommands.AnsweredKeyIsClosed | packages/modules/idempotency/src/prisma-idempotency.repository.ts:154-169 | once a key is answered, with a success or a problem, its record never changes and no later step moves money under it |
| MoneyCommands.AttemptIsAnswered | packages/modules/payments/src/payment-intent.service.ts:413-480 | over every interleaving: an attempt that owns its key stores the problem the tables call for, with its status, and moves no money; or commits and stores 200 for a capture, 201 for the rest; or changes nothing |
| MoneyCommands.RejectionIsAnswered | packages/modules/payments/src/payment-intent.service.ts:699-724 | the separate transaction stores 409 for a used reference and 422 for a declined execution, and moves no money |
| MoneyCommands.OpenKeyCanBeAnswered | packages/modules/idempotency/src/prisma-idempotency.repository.ts:98-220 | no key is stuck: in every reachable state a key without an answer whose lease is over, or that is new, is granted to a caller of its request, and the first undisturbed attempt answers it with the problem the tables call for or the effect of the command |
| Ledger.DebitsEqualCredits | packages/modules/ledger/src/ledger-posting.ts:12-96 | well-formed postings balance over the four accounts of a merchant and currency |
| Ledger.SettlementEntriesEffect | packages/modules/ledger/src/ledger-posting.ts:58-96 | the settlement entries net to minus gross, plus fee and plus net on their accounts and balance |
| Ledger.PaymentEntriesAreListed | packages/modules/ledger/src/ledger-posting.ts:12-56 | captures and refunds post exactly amounts from 1 to 2^53 - 1, as one debit and one credit on different accounts, numbered from 1 |
| Ledger.SettlementEntriesAreListed | packages/modules/ledger/src/ledger-posting.ts:58-96 | a settlement posts exactly gross = fee + net with fee >= 0, net >= 1 and gross <= 2^53 - 1, as one debit and numbered credits, with a fee entry exactly if there is a fee |
| Ledger.ReversalUndoesOnce | packages/modules/ledger/src/ledger.service.ts:205-250 | a reversal cancels its original on every account and leaves it in place; neither it nor its original can be reversed again |
| Ledger.PostingKeepsReversalsOk | packages/modules/ledger/src/prisma-ledger.repository.ts:148-266 | public identifiers stay unique and reversals keep naming one earlier posting each |
| Ledger.JournalAlwaysOk | packages/modules/ledger/src/ledger.service.ts:134-265 | in every journal built by postings and reversals: all postings balance, identifiers and business references are unique, each reversal mirrors one earlier posting that no other reversal names |
| Ledger.PostingAccepted | packages/modules/ledger/src/prisma-ledger.repository.ts:148-266 | a posting is accepted exactly if the merchant has its accounts and neither its identifier nor its business reference is taken |
| Ledger.ReversibleExactlyWhen | packages/modules/ledger/src/ledger.service.ts:205-250 | in every journal a posting can be reversed under fresh identifiers exactly if it is no reversal and has not been reversed |
| Ledger.UnknownIsNotReversed | packages/modules/ledger/src/ledger.service.ts:205-220 | a posting that the merchant does not have is reported as not found |
| AmountToken.MatchIsGrammar | apps/api/src/payment-intents/payment-intent-body.parser.ts:15 | the token pattern recognizes exactly the number grammar of section 6 of RFC 8259, with one reading per token |
| AmountToken.ConversionIsExact | apps/api/src/payment-intents/payment-intent-body.parser.ts:79-125 | for every text: the result is n exactly if the text is a JSON number with value n, 1 <= n <= 2^53 - 1, whose exponent has at most six significant digits |
| AmountToken.ConversionIsExactForRequests | apps/api/src/payment-intents/payment-intent-body.parser.ts:79-125 | for every text of fewer than 900,000 characters: the result is n exactly if the text is a JSON number with value n, 1 <= n <= 2^53 - 1, however it is written |
| AmountToken.LongExponentIsRejected | apps/api/src/payment-intents/payment-intent-body.parser.ts:66-77 | an input of the exported function alone: a token of more than a million characters and value 1 is rejected for its seven-digit exponent |
| AmountToken.ToExponentIsValue | apps/api/src/payment-intents/payment-intent-body.parser.ts:66-77 | the exponent text is read as its value, or rejected exactly if more than six significant digits remain |
| AmountToken.ShiftIsExact | apps/api/src/payment-intents/payment-intent-body.parser.ts:92-109 | all three positions of the decimal point: what survives denotes n exactly if the shifted numeral is n |
| AmountToken.SafeIntegerIsBound | apps/api/src/payment-intents/payment-intent-body.parser.ts:111-124 | the comparison of texts is the comparison of numbers with 2^53 - 1 |
| Decimal.LexicographicIsNumeric | apps/api/src/payment-intents/payment-intent-body.parser.ts:115 | code-unit order of numerals of equal length is numeric order |
| AmountToken.EventTokensAgree | packages/modules/eventing/src/payment-created-event.contract.ts:151-164 | the event contract accepts exactly the plain numerals the request parser accepts, and reads the same amount |
| KeyScanner.AssertNoDuplicateTopLevelKeys | apps/api/src/payment-intents/payment-intent-body.parser.ts:18-64 | the flag loop accepts a text exactly if all collected names decode to distinct strings |
| KeyScanner.ScannerFollowsStructure | packages/modules/eventing/src/payment-created-event.contract.ts:103-149 | for every well-formed JSON object: the scanner collects exactly the top-level names, and rejects exactly if two decode equal |
| KeyScanner.DecodeIsReading | apps/api/src/payment-intents/payment-intent-body.parser.ts:37-42 | decoding a name finds its one reading as characters, short escapes and four-digit escapes, by section 7 of RFC 8259, and fails exactly if it has none |
| KeyScanner.RejectsSameNames | apps/api/src/payment-intents/payment-intent-body.parser.ts:18-64 | for every well-formed JSON object: the text is rejected exactly if two of its top-level names denote the same string, however they are written |
| KeyScanner.SkipValue | apps/api/src/payment-intents/payment-intent-body.parser.ts:26-63 | a nested value, whatever it contains, leaves the scanner where it was |
| KeyScanner.ReadBody | apps/api/src/payment-intents/payment-intent-body.parser.ts:28-36 | a string body, escapes included, never ends the string early and is collected verbatim |
| ReconciliationClassifier.UniqueIndex | packages/modules/reconciliation/src/reconciliation-classifier.ts:17-32 | a key is in the index exactly if one row has it, and then maps to that row |
| ReconciliationClassifier.ClassifyRow | packages/modules/reconciliation/src/reconciliation-classifier.ts:48-102 | one provider row: its result by the declarative definition, and what is consumed afterwards |
| ReconciliationClassifier.Classify | packages/modules/reconciliation/src/reconciliation-classifier.ts:34-114 | the map-and-set matcher refines the quadratic definition of who gets which record |
| ReconciliationClassifier.KeyIsInjective | packages/modules/reconciliation/src/reconciliation-classifier.ts:41-44 | concatenated keys identify their pair as long as the kind has no colon |
| ReconciliationTotals.ClassificationIsPartition | packages/modules/reconciliation/src/reconciliation-classifier.ts:34-114 | with distinct record keys: provider row i is in result i only, every platform row in exactly one result |
| ReconciliationTotals.RowLostExactlyWhen | packages/modules/reconciliation/src/reconciliation-classifier.ts:72-112 | for every input: a platform row is in no result exactly if a provider row gets a different row with the same record key |
| ReconciliationTotals.NoRowLostExactlyWhen | packages/modules/reconciliation/src/reconciliation-classifier.ts:34-114 | for every input: all platform rows are in some result exactly if no claimed record key belongs to two different rows |
| ReconciliationTotals.ReaderRowsAreConserved | apps/worker/src/runtime/reconciliation-platform-read.adapter.ts:39-75 | the rows of the platform reader, keyed by event type and public identifier, are all in some result and conserved in every measure |
| ReconciliationTotals.SharedRecordKeyLosesRow | packages/modules/reconciliation/src/reconciliation-classifier.ts:103-112 | an input of the exported function alone: with a shared record key a platform row is in no result |
| ReconciliationTotals.ProvidersConserved | packages/modules/reconciliation/src/reconciliation-classifier.ts:48-102 | any measure of the provider rows is conserved by the results |
| ReconciliationTotals.PlatformsConserved | packages/modules/reconciliation/src/reconciliation-classifier.ts:77-112 | any measure of the platform rows is conserved, given that no claimed record key is shared |
| ReconciliationTotals.SharedKeyFallsShort | packages/modules/reconciliation/src/reconciliation-classifier.ts:77-112 | and that condition is exact: otherwise the results hold fewer platform rows than the input |
| ReconciliationTotals.SummaryProviders | packages/modules/reconciliation/src/prisma-reconciliation.repository.ts:302-325 | a summary's provider totals are those of the provider rows of its currency |
| ReconciliationTotals.SummaryPlatforms | packages/modules/reconciliation/src/prisma-reconciliation.repository.ts:302-327 | a summary's platform totals are off from the platform rows of its currency only by currency mismatches |
| ReconciliationTotals.BucketMeans | packages/modules/reconciliation/src/reconciliation-classifier.ts:83-102 | about every classification: a result with both rows is an exact match exactly if currency, gross, fee and net agree and the provider row succeeded, a status mismatch if they agree and it did not, an amount mismatch if the currency alone agrees, else a currency mismatch; with the reason of each bucket |
| ReconciliationTotals.SummaryCounts | packages/modules/reconciliation/src/prisma-reconciliation.repository.ts:302-330 | the counts of a summary are the numbers of results with those meanings |
| ReconciliationTotals.SummaryAmounts | packages/modules/reconciliation/src/prisma-reconciliation.repository.ts:302-330 | its six amounts are the sums over the rows that the results hold |
| ReconciliationTotals.UnexplainedIsInputDifference | packages/modules/reconciliation/src/prisma-reconciliation.repository.ts:309-330 | the two unexplained differences add up to provider net minus platform net of the input |
| ReconciliationTotals.CountsAddUp | packages/modules/reconciliation/src/prisma-reconciliation.repository.ts:307-327 | the counts of both summaries count every result once |
| ReconciliationClaim.CompletedExactlyOnce | packages/modules/reconciliation/src/prisma-reconciliation.repository.ts:242-415 | over any run of competing workers: completed imports have their classification, both summaries and one event; all others have none |
| ReconciliationClaim.TerminalForever | packages/modules/reconciliation/src/prisma-reconciliation.repository.ts:342-372 | completed and failed imports and their results never change |
| ReconciliationClaim.StaleClaimersCommitNothing | packages/modules/reconciliation/src/prisma-reconciliation.repository.ts:359-372 | a call that changes anything holds the latest claim of its import and an unexpired lease, if every call drew its own owner string |
| ReconciliationClaim.ReusedOwnerBreaksFencing | packages/modules/reconciliation/src/reconciliation.service.ts:175-187 | without the per-call suffix an earlier call can commit under a later call's lease |
| ReconciliationClaim.LatestClaimDecides | packages/modules/reconciliation/src/prisma-reconciliation.repository.ts:242-411 | in every reachable state a call changes anything exactly if its import is staged and the latest claim of it carries the call's owner string with an unexpired lease |
| ReconciliationClaim.ClaimedExactlyWhen | packages/modules/reconciliation/src/prisma-reconciliation.repository.ts:242-269 | in every reachable state a claim gets an import exactly if it is staged and every earlier claim of it is at least 30 seconds old |
| ReconciliationClaim.ClaimsAreSeparated | packages/modules/reconciliation/src/prisma-reconciliation.repository.ts:242-269 | over every run two claims of one import are at least 30 seconds apart |
| ReconciliationClaim.CompletedReportMeans | packages/modules/reconciliation/src/prisma-reconciliation.repository.ts:374-411 | the event of a completed import counts as matched exactly the results whose rows agree and succeeded, and all others as mismatches |
| ReconciliationClaim.OverflowsExactlyWhen | packages/modules/reconciliation/src/prisma-reconciliation.repository.ts:309-330 | an import fails for the size of its totals exactly if some total of a currency is no safe integer |
| ReconciliationClaim.FirstUploadDecides | packages/modules/reconciliation/src/prisma-reconciliation.repository.ts:98-224 | over every run an import is what its first upload made it: a rejected one failed with its code for good, an accepted one keeps its rows |
| ReconciliationClaim.StagedImportCanBeEnded | packages/modules/reconciliation/src/prisma-reconciliation.repository.ts:242-411 | no staged import is stuck: it can be claimed once its latest lease is over, the claimer ends it with its evidence or as overflowed, and it stays so over every later run |
| ReconciliationClaim.ReconciliationStore.ClaimImport | packages/modules/reconciliation/src/prisma-reconciliation.repository.ts:242-269 | the claim statement: lease and owner of a claimable row, nothing otherwise |
| ReconciliationClaim.ReconciliationStore.ProcessImport | packages/modules/reconciliation/src/prisma-reconciliation.repository.ts:270-415 | classify, summarize and finish in one transaction, or report lost ownership and change nothing |
| Idempotency.AtMostOneCommit | packages/modules/idempotency/src/prisma-idempotency.repository.ts:98-291 | per scope at most one operation commits, for the record's request hash, and the record is completed with exactly its response |
| Idempotency.ResponsesAreImmutable | packages/modules/idempotency/src/prisma-idempotency.repository.ts:250-267 | a completed record keeps its response and expiry forever; identity and request hash of a record never change |
| Idempotency.ReplayIsTheCommit | packages/modules/idempotency/src/prisma-idempotency.repository.ts:154-169 | a replay returns the response of the one commit, to the same request, before its expiry |
| Idempotency.NeverExecutedAgain | packages/modules/idempotency/src/prisma-idempotency.repository.ts:158-169 | after a commit no acquisition of the scope is granted at any clock, and no grant of the record completes again |
| Idempotency.OnlyTheLatestGrantCompletes | packages/modules/idempotency/src/prisma-idempotency.repository.ts:231-267 | in every reachable state a grant can complete exactly while its record is in progress and the latest grant of it carries the same token |
| Idempotency.TakeoverIsFinal | packages/modules/idempotency/src/prisma-idempotency.repository.ts:171-204 | in every reachable state an expired record in progress is granted to any caller with its request hash, and no earlier grant with another token ever completes it afterwards |
| Idempotency.LeasesSeparateGrants | packages/modules/idempotency/src/prisma-idempotency.repository.ts:171-204 | over every run, whatever the clocks: two grants of one record with different tokens are separated by a takeover at or after the end of the lease that the earlier grant had |
| Idempotency.LeaseKeepsOthersOut | packages/modules/idempotency/src/prisma-idempotency.repository.ts:178-183 | until the lease of a caller is over no caller with another token is granted the record, and a repeat of the request is told to wait |
| Idempotency.LogDecidesAcquisition | packages/modules/idempotency/src/prisma-idempotency.repository.ts:98-220 | in every reachable state the latest grant of a record in progress decides what the next caller is told |
| Idempotency.CommittedResponseIsReplayed | packages/modules/idempotency/src/prisma-idempotency.repository.ts:154-169 | after a commit, over every later run: another request is refused, the same one gets the stored response until its expiry and is refused from then on |
| Idempotency.StaleOwnerIsFenced | packages/modules/idempotency/src/prisma-idempotency.repository.ts:231-241 | after a takeover the earlier owner's completion finds nothing |
| Idempotency.DoneMeansCommitted | packages/modules/idempotency/src/prisma-idempotency.repository.ts:222-291 | a caller told "done" by the retry loop finds its own commit stored, whatever others did between the attempts |
| Idempotency.CompletionTriesThrice | packages/modules/idempotency/src/prisma-idempotency.repository.ts:222-291 | the loop makes up to three attempts and goes on only after a transient error |
| Idempotency.IdempotencyStore.AcquireRecord | packages/modules/idempotency/src/prisma-idempotency.repository.ts:98-220 | insert or read, replay, refuse or take over |
| Idempotency.IdempotencyStore.CompleteRecord | packages/modules/idempotency/src/prisma-idempotency.repository.ts:222-291 | the bounded retry loop around the fenced completion, with other callers between the attempts |
| WebhookDelivery.DeliveryAlwaysOk | packages/modules/webhooks/src/prisma-webhook-delivery.repository.ts:187-677 | over any run with crashes and late workers: evidence numbered 1 to k, attempt count k plus one if active, at most seven attempts, one final outcome, legal row shapes |
| WebhookDelivery.AtMostSevenSends | packages/modules/webhooks/src/prisma-webhook-delivery.repository.ts:295-422 | at most seven attempts start, with increasing numbers |
| WebhookDelivery.TerminalIsAbsorbing | packages/modules/webhooks/src/prisma-webhook-delivery.repository.ts:424-538 | a delivered or dead-lettered row never changes again |
| WebhookDelivery.NoStuckState | packages/modules/webhooks/src/prisma-webhook-delivery.repository.ts:187-232 | every waiting row has a next time and at most six attempts; every leased row is recoverable into such a row or a terminal one |
| WebhookDelivery.EveryRunCountsDown | packages/modules/webhooks/src/prisma-webhook-delivery.repository.ts:187-677 | along every run each start and each closed attempt uses up one of fourteen steps, and a delivery that has none left is delivered or dead-lettered |
| WebhookDelivery.CrashingWorkerTerminates | packages/modules/webhooks/src/prisma-webhook-delivery.repository.ts:544-635 | a worker that crashes in every attempt against an active endpoint brings an unleased delivery to dead_lettered with seven records |
| WebhookDelivery.StartArgumentsAlwaysValid | packages/modules/webhooks/src/prisma-webhook-delivery.repository.ts:299-307 | the argument check of startAttempt never fires for a genuine claim with the scheduled delay |
| WebhookDelivery.FinalizeOnlyOwn | packages/modules/webhooks/src/prisma-webhook-delivery.repository.ts:436-490 | only the last started attempt, still active and leased, can be finalized, and never without its retry time |
| WebhookOutcomes.ResultDecides | packages/modules/webhooks/src/webhook-delivery-retry.ts:55-99 | over every run: a finalization that closes attempt n makes the delivery delivered exactly for the statuses 200 to 299, retrying at the planned time exactly for 408, 429, 500 and above and the five transient transport codes before the seventh attempt, else dead-lettered; with its evidence |
| WebhookOutcomes.DelaysAreTheSchedule | packages/modules/webhooks/src/webhook-delivery-retry.ts:8-35 | the delays before attempts two to seven are exactly those from zero to 1, 5, 15, 60, 360 and 1440 minutes, and no other attempt has one |
| WebhookOutcomes.StartDecides | packages/modules/webhooks/src/prisma-webhook-delivery.repository.ts:295-422 | over every run: a start changes the delivery exactly if its claim still holds it: an inactive endpoint ends it without a send, changed secrets give the claim up, otherwise the next attempt starts within the lease with its retry planned |
| WebhookOutcomes.NotBeforeItsTime | packages/modules/webhooks/src/prisma-webhook-delivery.repository.ts:187-232 | over every run: a delivery that nobody holds is not touched before its next time and can be claimed from then on |
| WebhookOutcomes.ClaimHoldsForItsLease | packages/modules/webhooks/src/prisma-webhook-delivery.repository.ts:187-232 | over every run: for 30 seconds after a claim no other claim, late worker or recovery changes the row |
| WebhookOutcomes.RecoveryDecides | packages/modules/webhooks/src/prisma-webhook-delivery.repository.ts:544-635 | over every run: a recovery changes exactly a row whose lease is over, and closes a started attempt as unknown at its planned time, or for good after the seventh |
| WebhookOutcomes.ReleaseDecides | packages/modules/webhooks/src/prisma-webhook-delivery.repository.ts:540-542 | over every run: giving a claim back clears it exactly while it holds the delivery and has not started an attempt |
| WebhookDelivery.ClassificationAgrees | packages/modules/webhooks/src/webhook-delivery-retry.ts:55-99 | dispatcher and repository derive the same status from a result: delivered for 200 to 299, retrying for the transient results before the seventh attempt, else dead-lettered |
| WebhookOutcomes.DispatcherDecides | packages/modules/webhooks/src/webhook-delivery.service.ts:124-233 | over every run: what the dispatcher does with a claim and reports for it, from load to finalization |
| WebhookDelivery.StartedIsSignable | packages/modules/webhooks/src/webhook-delivery.service.ts:172-182 | both branches that give up after a start are unreachable, and the signing versions are the selected ones |
| WebhookDelivery.ProcessingIsSound | packages/modules/webhooks/src/webhook-delivery.service.ts:124-233 | processing a genuine claim keeps the row legal and reports a missing dependency only for a failed decryption before the start |
| WebhookDelivery.DeliveryStore.ClaimDue | packages/modules/webhooks/src/prisma-webhook-delivery.repository.ts:187-232 | claims the due rows its query picked, each with a fresh token |
| WebhookDelivery.DeliveryStore.StartAttempt | packages/modules/webhooks/src/prisma-webhook-delivery.repository.ts:295-422 | starts, ends as inactive, clears or leaves the row as the start transaction says |
| WebhookDelivery.DeliveryStore.FinalizeAttempt | packages/modules/webhooks/src/prisma-webhook-delivery.repository.ts:424-538 | writes evidence and status of the active attempt, or nothing |
| WebhookDelivery.DeliveryStore.RecoverExpired | packages/modules/webhooks/src/prisma-webhook-delivery.repository.ts:544-635 | recovers each listed row and counts cleared, recovered and dead-lettered ones correctly |
| WebhookDelivery.DeliveryStore.ProcessClaim | packages/modules/webhooks/src/webhook-delivery.service.ts:124-233 | one claim from load to finalization |
| WebhookEndpoint.SecretsAlwaysOk | packages/modules/webhooks/src/prisma-webhook-endpoint.repository.ts:225-357 | under interleaved rotations, patches and stale contexts: versions contiguous from 1, the highest current, the one before previous, older ones retired |
| WebhookEndpoint.RotationCommits | packages/modules/webhooks/src/webhook-endpoint.service.ts:217-264 | a rotation commits exactly if context, expectation and row carry the same version; the current-secret count and the version uniqueness never fail |
| WebhookEndpoint.OneChangePerVersion | packages/modules/webhooks/src/webhook-endpoint.service.ts:157-264 | of all changes for one expected version at most one takes effect |
| WebhookEndpoint.PatchDecides | packages/modules/webhooks/src/webhook-endpoint.service.ts:157-215 | over every run: a patch writes the given values and no others under the next version exactly if one of them is new and the version is the expected one, and they stay until the next change |
| WebhookEndpoint.RotationOverlaps | packages/modules/webhooks/src/prisma-webhook-endpoint.repository.ts:318-357 | over every run: a rotation makes the next version current, and for exactly 24 hours attempts are signed with the one before it as well |
| WebhookEndpoint.RotationIsPossible | packages/modules/webhooks/src/webhook-endpoint.service.ts:217-264 | from every reachable state a rotation with a context read now commits |
| WebhookEndpoint.VersionCountsChanges | packages/modules/webhooks/src/webhook-endpoint.service.ts:157-264 | in every reachable state the version is the number of changes so far |
| WebhookEndpoint.StartedSignsWithSelected | packages/modules/webhooks/src/prisma-webhook-delivery.repository.ts:348-369 | whatever happens to the endpoint between load and start, a started attempt signs with the versions selected in its own transaction |
| WebhookEndpoint.EndpointStore.Rotate | packages/modules/webhooks/src/prisma-webhook-endpoint.repository.ts:318-357 | retires, demotes and inserts secrets under the version check |
| WebhookEndpoint.EndpointStore.Patch | packages/modules/webhooks/src/webhook-endpoint.service.ts:157-215 | changes status and subscriptions under the version check |
| OutboxRelay.OneFinalizationEach | packages/modules/eventing/src/outbox-relay.service.ts:72-90 | each claimed event gets one finalization in order: published exactly if its last outcome is a confirmation, postponed if it has none |
| OutboxRelay.FailuresAreRetries | packages/modules/eventing/src/outbox-relay.service.ts:54-67 | with one outcome per event the reported failure counts, summed over all codes, are exactly the events scheduled for a retry |
| OutboxRelay.DelaysReachTheLongest | packages/modules/eventing/src/outbox-retry.ts:8-13 | the delays after an attempt are exactly those from zero to the base doubled with every attempt up to the thirty-first, capped by the maximum |
| OutboxRelay.DelaysFollowTheClaim | packages/modules/eventing/src/outbox-relay.service.ts:72-90 | the delay of a claimed event follows the attempt count that its claim leaves in the row |
| OutboxRelay.UpdatesAreOwned | packages/modules/eventing/src/prisma-outbox-relay.repository.ts:189-274 | the updates a batch counts are the distinct events the worker owned, however often an event occurs in it, and no other row changes |
| OutboxRelay.Relay.FinalizeEvents | packages/modules/eventing/src/prisma-outbox-relay.repository.ts:189-274 | applies each finalization to a row the worker still owns and counts the rest as lost |
| OutboxRelay.Relay.RunOnce | packages/modules/eventing/src/outbox-relay.service.ts:24-109 | one relay run: claims, outcomes to finalizations, and counts that add up |
| EventDelivery.PublishedOrClaimable | packages/modules/eventing/src/prisma-outbox-relay.repository.ts:96-274 | a published row was confirmed by the broker; an unpublished one can be claimed again once its delay and lease are over |
| EventDelivery.PublishedForever | packages/modules/eventing/src/prisma-outbox-relay.repository.ts:215-228 | a published row never changes again |
| EventDelivery.EmittedEventsWait | packages/modules/eventing/src/prisma-outbox-relay.repository.ts:96-187 | over every run: an emitted event keeps its identity, and until a claim gets it its row waits, claimable from the time of its emission on |
| EventDelivery.LeaseKeepsOthersOut | packages/modules/eventing/src/prisma-outbox-relay.repository.ts:96-187 | over every run: while the lease of a claim runs and its worker finalizes nothing, no other claim gets the event |
| EventDelivery.PostponedEventsWait | packages/modules/eventing/src/prisma-outbox-relay.repository.ts:189-274 | over every run: an owned event is published exactly if its last report is a confirmation; otherwise it is untouched until its delay is over and can be claimed from then on |
| EventDelivery.AttemptsAreClaims | packages/modules/eventing/src/prisma-outbox-relay.repository.ts:96-187 | in every reachable state the attempt count of an event is the number of batches that claimed it |
| EventDelivery.EventCanArrive | packages/modules/eventing/src/outbox-relay.service.ts:24-109 | from every reachable state a claimable event can be published and processed: then its row is published, the consumer has recorded it and its effect is committed once |
| EventDelivery.EffectAtMostOnce | packages/modules/eventing/src/inbox.service.ts:53-105 | per consumer and event the effect commits at most once, with its inbox row, only for an accepted event; genuine redeliveries never conflict |
| Inbox.LoopKeepsOnce | packages/modules/eventing/src/inbox.service.ts:53-105 | whatever others do between the attempts, "processed" and "duplicate" mean the effect committed exactly once for this message |
| Inbox.ExhaustedExactlyWhen | packages/modules/eventing/src/inbox.service.ts:87-105 | the loop gives up exactly if every attempt conflicted |
| Inbox.FirstCommitDecides | packages/modules/eventing/src/inbox.service.ts:53-105 | over every history of deliveries: a message is recorded exactly if a delivery under its key committed, with the identity of the first that did, and its effect ran once |
| Inbox.ReplyTellsFirstCommit | packages/modules/eventing/src/inbox.service.ts:71-84 | after every history: a delivery is told processed, duplicate or conflict by the first commit under its key |
| Inbox.RedeliveriesChangeNothing | packages/modules/eventing/src/inbox.service.ts:71-84 | any number of further deliveries under committed keys, in any order, of the same or different messages, leaves every table as it is |
| Inbox.InboxStore.Reserve | packages/modules/eventing/src/prisma-inbox.repository.ts:63-115 | inserts the row or returns the one that is there |
| Inbox.InboxStore.ProcessForConsumer | packages/modules/eventing/src/inbox.service.ts:53-105 | the bounded retry loop around reserve and effect |
| VerificationCache.AgreesWithDirect | packages/modules/merchant-access/src/api-key-credential.service.ts:109-214 | under any interleaving every resolved call answers what direct verification answers: true exactly if the plaintext is a key id and a secret in the test format and derives the stored key under the stored salt |
| VerificationCache.CachedAnswersAreYoung | packages/modules/merchant-access/src/api-key-credential.service.ts:179-201 | a cached answer was given less than one TTL after a derivation of its own pair |
| VerificationCache.HitKeepsExpiry | packages/modules/merchant-access/src/api-key-credential.service.ts:179-190 | a hit keeps every entry with the expiry it had |
| VerificationCache.CallsRefresh | packages/modules/merchant-access/src/api-key-credential.service.ts:179-190 | in every reachable state a call moves its live entry to the end, drops an expired one and leaves all others |
| VerificationCache.RecentPairIsServed | packages/modules/merchant-access/src/api-key-credential.service.ts:179-201 | over every run: a pair is answered from the cache before its expiry while fewer entries than the size allows were put or used after it |
| VerificationCache.DerivationIsRemembered | packages/modules/merchant-access/src/api-key-credential.service.ts:203-214 | a successful derivation puts its pair last in the cache for one TTL |
| VerificationCache.MissJoinsOrDerives | packages/modules/merchant-access/src/api-key-credential.service.ts:151-177 | in every reachable state a call without a live entry joins the visible derivation of its pair, or starts one |
| VerificationCache.DerivationEnds | packages/modules/merchant-access/src/api-key-credential.service.ts:165-214 | in every reachable state a derivation ends with the answer of its pair or its rejection, only a success changes the cache, and once settled no call can join it |
| VerificationCache.TablesAreBounded | packages/modules/merchant-access/src/api-key-credential.service.ts:169-201 | cache and in-flight table never exceed the configured size |
| VerificationCache.OneRegisteredDerivation | packages/modules/merchant-access/src/api-key-credential.service.ts:165-176 | no pair has two registered derivations at a time |
| VerificationCache.FingerprintIsInjective | packages/modules/merchant-access/src/api-key-credential.service.ts:93-99 | the hashed text identifies credential and stored hash |
| VerificationCache.CredentialService.RememberVerifiedFingerprint | packages/modules/merchant-access/src/api-key-credential.service.ts:192-201 | the eviction loop makes room for one entry and sets it |
| VerificationCache.CredentialService.Verify | packages/modules/merchant-access/src/api-key-credential.service.ts:151-177 | the synchronous part of verify over cache and in-flight table |
| ErrorGraph.VisitErrorGraph | packages/infrastructure/src/database-error.ts:34-63 | terminates on every finite graph, cyclic or not, and visits exactly the reachable records, each once |
| ErrorGraph.HasDatabaseErrorCode | packages/infrastructure/src/database-error.ts:65-76 | true exactly if a reachable record carries an expected code |

## Left out

- PostgreSQL isolation and locking: a transaction is one atomic step. What the row locks do is that atomicity; `locked` keeps the one visible effect of SKIP LOCKED.
- Identifiers: internal UUIDs and public identifiers are one identifier; a clash of a fresh one is an aborting, retried step. SHA-256 is taken to be injective.
- MoneyStore.Store.Settle: the two queries of a run are given as the rows they return; that these exist and are unique is `MoneySelection`. The transient status `batched` inside the writing transaction is not a separate state.
- MoneyStore.Store.CaptureCommandLoop: the transactions of others between the attempts are given by the tables they leave; that these come from steps of the system is a precondition.
- MoneyCommands.OneKeyOnePosting: a request hash stands for one canonical request, since SHA-256 is taken to be injective. How often a caller tries again is left open, which covers the three attempts of commands and settlement runs; by which message a settlement run recognises a collision is not modelled.
- MoneyTotals.LedgerAgreesAlways: reversals are not part of these runs, since no payment or settlement path posts one; they are treated in `Ledger`.
- Provider execution before a capture or refund, audit rows, telemetry, HTTP mapping and validation patterns: they decide no money.
- last_event_id and last_event_occurred_at of a position: written, never read by a decision.
- Database triggers and check constraints: nothing is proved from them; that stored batch totals match their rows is proved from the transactions.
- AmountToken.ConversionIsExact: the largest amounts are compared as unbounded integers; that `Number` reads a safe numeral exactly is a fact about doubles that is used, not proved.
- KeyScanner.ScannerFollowsStructure: texts are sequences of Unicode scalar values; unpaired surrogates, which the decoders reject or replace beforehand, do not occur. Texts that are not objects are left to the parser behind the scanner.
- ReconciliationClaim.StaleClaimersCommitNothing: needs distinct owner strings, which the random suffix provides; `ReusedOwnerBreaksFencing` shows why.
- CSV parsing and staging of provider rows; the platform reader's queries; report pages and cursors.
- WebhookDelivery.DeliveryStore.ProcessClaim: no other transaction runs between its start and its finalization; interleavings are covered by the runs of single steps in `DeliveryAlwaysOk`. The three attempts around each delivery transaction are steps of such runs, too.
- Error codes, response digests and times in the evidence of an attempt: written, never read by a decision.
- WebhookOutcomes.DelaysAreTheSchedule: jitter is computed over reals, so rounding of doubles and the sample NaN are not modelled.
- The webhook HTTP client, DNS and URL policy, header construction and encryption: a send returns an arbitrary result, a decryption works or fails.
- EventDelivery.PublishedOrClaimable: workers are fenced by name only, as in the source; a worker that is told of a confirmation for a batch it no longer owns but owns again may mark the row, which the confirmation still justifies.
- RabbitMQ connections and topology: the broker accepts, confirms, drops before confirming, repeats and reorders.
- VerificationCache.AgreesWithDirect: key derivation and the stored-hash parser are arbitrary functions; a rejected derivation resolves no call.
- ErrorGraph.VisitErrorGraph: property access has no side effects, and the graph is finite. findDatabaseConstraint, which takes the first match of the same traversal, is not modelled.
