# Obolus: verified models

Obolus sells evidence documents: a buyer funds a research job, a worker pays
Pay.sh for each quoted document on Solana, a ledger records what was bought,
and contributors are paid out of escrow. This project models the parts of that
system whose mistakes cost money, and proves what they guarantee.

* **Durable payments.** `Ledger` is the ledger of jobs, quotes, attempts, fences
  and registered signatures; `LedgerAdmission` says exactly which calls it takes
  and what they leave, `LedgerContract` how one answers after another.
  `Protocol` interleaves it, in any order, with transport fences, reconciliation
  passes, the gateway, crashes and the chain; `ProtocolSafety` proves that no
  quote is ever paid twice. `MoneyInvariant` and `ProtocolMoney` add what that
  means for money: no document is paid twice however often it is quoted, no job
  spends more than its budget, the books of a closed job balance; `JobBalance`
  says on which plans they do so to the unit, `LateFailure` what failing a job in
  two steps would do. `Reconciler` and `ReconcilerRun` are the decisions
  and the loop of the reconciliation worker, `FetchFence` the fence that records
  bytes before they leave, `Runner` and `RunnerSafety` one run of a job,
  `RunnerCalls` which calls a run makes, told from the answers alone.
* **Bytes and chain views.** `TransactionBytes` is the envelope codec, the
  gateway's completion and the reconciler's matcher; `Scan` the paged scan of a
  growing history; `ScanTruth` and `Finality` tie both to the protocol;
  `ExactTransfer` is the check that a transaction pays exactly the quote, and
  `ExactInstructions` the instruction lists that pass it.
* **Payouts.** `Payout` is the claim rows, the leases, the worker, its requests
  on their way to the ledger and the verdict from several RPC origins;
  `PayoutContract` says exactly when the ledger takes each of them.
  `PayoutSafety` proves that no claim is paid twice, `PayoutHeights` how far a
  recorded height may be off for that, `PayoutReports` which late reports break
  it; `PayoutRuns` builds their runs.
* **Search.** `Selection` is the bundle selection (dynamic program, Pareto
  pruning, cap) and `ResolveDecision` the answer built from it. `PageRank` is the
  authority iteration over arrays, `RankFlow` the same told from query and graph,
  `Convergence` its theory, `Vectors` the linear algebra below it.
* **Invoices.** `CanonicalJson`, `KeyOrder` and `CanonicalForm` are the canonical
  printers, `JsonReader` a reader after the grammar of RFC 8259 that they are
  proved against; `Decimal` the amount texts; `Invoice` and `LedgerInvoice` the two
  validators; `InvoiceCommitment` the text an invoice is hashed by.
* **Other.** `SchemaOrder` orders schema statements, `PaymentRouting` holds the
  gateway's in-process fences. `Sorting`, `Sums` and `Wrappers` are shared.

Operations that change state or loop in the original are methods or classes
here, proved against specification functions; ledger transactions, which are
single database transactions, and the events of the two protocols are functions
from state to state.

## Assumptions

* A message executes at most once, and never once its blockhash is invalid (for
  payouts: above its last valid block height) at finalized commitment. A
  transaction signature belongs to one landed message.
* One configured RPC origin, the same in every pass, answers truthfully about
  what is finalized. Its view may lag but never moves backwards. The other
  origins answer anything.
* The blockhash of a message can be read off its bytes. Signing is
  deterministic: a signer has one signature under a message.
* A payout worker's requests may be executed late or more than once, and several
  passes may share a worker id: its client gives up after twenty seconds
  (agent-orchestrator/src/main.ts:109), and the id is a configured constant or
  the process number (line 84). What the payout results assume is that abandoning
  reports are harmless where they are executed (`PayoutSafety.Careful`). The
  ledger does not ensure it, for it compares the worker id alone:
  `PayoutReports.PaidTwiceExactly` says which reports do harm. Comparing the lease
  would exclude them all (`PayoutReports.FreshIsCareful`).
* Each ledger operation is one step. One backend process locks its only
  connection for a whole operation (backend/src/store.rs:568-575). A second
  process on the same database could begin a payment between the two statements
  of a failing call, whose update does not compare the status again:
  `LedgerContract.LateFailureExactly` says when that does harm,
  `LateFailure.RefundedAndPaid` which.
* Signature verification, digests, base58, base64, UTF-8 decoding and token
  account derivation are parameters; texts of base58 and base64 are represented
  by the bytes they encode.
* Scores, utilities and ranks are real numbers.

## Where code and expectation part

The model follows the code. These are places where that matters:

* The Rust amount parser accepts a leading plus sign, the TypeScript one does
  not (`Decimal.ParsersAgreeExactly`).
* The two canonical printers order keys differently once surrogates are involved,
  and write some numbers differently (`CanonicalForm.PrintersAgreeExactly`). On
  invoices they agree as soon as the worker's own check of the expiry has passed
  (`InvoiceCommitment.SameCommitment`).
* The ledger bounds fees line by line, the worker by the aggregate that a comment
  in the ledger calls too strict (`LedgerInvoice.OnlyTheCeilingsDiffer`).
* Never deciding anything: the ledger's aggregate ceiling and the clamp of a
  line's share above one unit, the worker's comparison of the line total, the
  runner's error after an undelivered loop, the guard inside `forget`.
* The budgeted selection keeps, of states at one price, only the one worth most,
  although another document may be the better company for a later one. So the
  bundle is the best of its size, up to the tolerance of the pruning, where every
  candidate overlaps alike with those ranked above it, and elsewhere within what
  overlap varies by (`Selection.BestWhereOverlapsAlike`); for any terms that
  overlap unlike, scores can be found that lose about as much
  (`Selection.UnlikeOverlapMisleads`).
* The schema fallback also runs for a table that references itself, and emits
  the remaining tables in hash order; of two statements for one table the earlier
  is dropped (`SchemaOrder.OrderedStatements`, `SchemaOrder.OrderedIsPermutationExactly`).
* The runner compares each plan with the whole budget, not with what is left of
  it. So one run on its own needs a ledger whose plans shrink
  (`RunnerSafety.RelistingBreaksTheBudget`).
  Re-quoting does not hurt (`RunnerSafety.ByDocumentShrinks`), and the ledger
  binds one quote per purchase for good, so that a document whose bound quote has
  expired is not sold under another one: its plans fail instead.
* A payout's last valid height comes from the first RPC origin alone. A record
  that is short by one block does no harm; any shorter one allows paying twice,
  though another origin be truthful (`PayoutHeights.PaidTwiceExactly`).
* A refund is computed from the bundle's prices, a payment is made at the quote's
  amount. They can differ when the exchange rate changed between funding and the
  first plan, and the worker does not compare them, only the plan's sum with the
  budget. Payments and refund then make up the budget in every run exactly when
  each planned amount is the price of its document (`JobBalance.BalancesExactly`);
  otherwise 13 can leave a budget of 12 (`JobBalance.ThirteenOfTwelve`).
* The ledger would note an absence on an attempt that was only claimed; the
  reconciler never asks it to (`Ledger.DeferKeeps`).
* With another signer missing, the reconciler's matcher is wider than the
  gateway's completion (`TransactionBytes.CoincideExactly`).

## Model

| member | source | states |
|---|---|---|
| ProtocolSafety.NoQuoteIsPaidTwice | agent-orchestrator/src/pay-sh-reconciler.ts:139-258 | In every state of every run, at most one attempt of a quote, on either rail, has a message that succeeded on chain |
| ProtocolMoney.NoDocumentIsPaidTwice | backend/src/store.rs:20149-20246 | However often a document of a query is quoted, over both rails at most one attempt for it ever succeeds on chain |
| ProtocolMoney.JobStaysWithinBudget | agent-orchestrator/src/runner.ts:280-297 | In every run, what succeeded on chain for a job stays within its funded budget |
| ProtocolMoney.BooksBalance | backend/src/store.rs:13270-13385 | For every closed job the bundle's prices of what succeeded on chain and the refund make up the budget |
| JobBalance.BalancesExactly | backend/src/store.rs:16054-16098 | For every bundle and every affordable plan: all runs that close the job balance payments and refund exactly when each planned amount is the bundle's price of its document |
| JobBalance.BuysOne | backend/src/store.rs:13270-13385 | The run behind it, for any bundle and amounts: one document is planned, paid on chain and delivered, then the job fails and the prices of the others go back |
| JobBalance.ThirteenOfTwelve | backend/src/store.rs:13270-13385 | Its smallest case: amounts of 8 and 4 for prices of 7 and 5; 8 are paid and 5 refunded out of a budget of 12 |
| ProtocolMoney.PlanAtPricesBalances | backend/src/store.rs:16054-16098 | A plan at the bundle's prices: payments and refund make up the budget in every run |
| ProtocolMoney.PlanBelowPrices | backend/src/store.rs:16054-16098 | A plan at most at the bundle's prices: payments and refund stay within the budget, and make it up exactly when nothing bought was cheaper |
| ProtocolMoney.PlanAbovePrices | backend/src/store.rs:16054-16098 | A plan at least at the bundle's prices: payments and refund reach the budget, and exceed it exactly when something bought was dearer |
| ProtocolMoney.CompletedIsDelivered | backend/src/store.rs:13244-13268 | In every run a completed job got all its documents, each paid on chain by an attempt of its own |
| ProtocolMoney.RunMoney | backend/src/store.rs:12496-12663 | In every reachable state: one bound quote per purchase, one owner per document, accepted plans within budget, begun payments for planned quotes, balanced books |
| MoneyInvariant.PayableIsPlanned | backend/src/store.rs:12749-12769 | A quote that a job may begin to pay is one its accepted plan names, re-quoting included |
| MoneyInvariant.ListMoney | backend/src/store.rs:12562-12573 | Listing a document under another quote never takes a quote that is being paid or was delivered |
| MoneyInvariant.BindMoney | backend/src/store.rs:20149-20246 | Binding a quote to the rail keeps one bound quote per purchase |
| MoneyInvariant.ClosingBooks | backend/src/store.rs:16054-16098 | What is counted as spent at closing is what settled attempts of this very job bought |
| ProtocolSafety.ReleasedByPassIsDead | agent-orchestrator/src/pay-sh-reconciler.ts:185-239 | A pass that is about to release holds a message that never succeeded and never can |
| ProtocolSafety.ReleasedNeverSucceeds | agent-orchestrator/src/durable-pay-client.ts:45-108 | No continuation of a run lets a released message succeed, even when a fence that had prepared it only sends it afterwards |
| ProtocolSafety.ReleasedOnlyByItsPass | backend/src/store.rs:13063-13170 | No event but the call of a pass that listed the attempt under the status it still has releases it: a claim, or recorded bytes absent a second time two minutes later |
| ProtocolSafety.DeadStays | agent-orchestrator/src/pay-sh-reconciler.ts:485-495 | A message that failed, or whose blockhash expired before it landed, stays that way through every event |
| ProtocolSafety.SinglePassIsUnsound | agent-orchestrator/src/pay-sh-reconciler.ts:216-239 | A concrete reachable state in which one pass has every absence and expiry a release asks for, while the message has succeeded |
| ProtocolSafety.EveryLandingIsRecorded | agent-orchestrator/src/durable-pay-client.ts:76-108 | Nothing executes on chain without an attempt that recorded its exact bytes beforehand |
| ProtocolSafety.EveryDeliveryIsBacked | backend/src/store.rs:10491-10822 | Every delivered quote has its own settled attempt whose message succeeded, under a signature no other settlement has |
| ProtocolSafety.ClosedJobOwesNothing | backend/src/store.rs:13244-13385 | Once a job no longer holds a payment, each of its attempts that succeeded on chain is settled and its quote delivered |
| ProtocolSafety.ClosedJobStaysClosed | backend/src/store.rs:13270-13385 | No event of any kind reopens a refunded or completed job |
| ProtocolSafety.RunAdvances | backend/src/store.rs:17199-17300 | Over any continuation of a run, recorded bytes, first observations, final verdicts and deliveries never change |
| ProtocolSafety.RunKeeps | agent-orchestrator/src/pay-sh-reconciler.ts:139-258 | The whole invariant holds in every reachable state |
| ProtocolSafety.StepKeeps | agent-orchestrator/src/pay-sh-reconciler.ts:139-258 | Every single event, of jobs, fences, passes, chain or gateway, keeps the invariant and only advances the ledger |
| ProtocolSafety.ChainStepKeeps | agent-orchestrator/src/pay-sh-reconciler.ts:185-239 | Chain progress and a catching-up view never revoke what a pass or the ledger concluded |
| ProtocolSafety.FenceStepKeeps | agent-orchestrator/src/durable-pay-client.ts:45-108 | Entering, preparing with or without a lost response, sending and crashing keep the invariant |
| ProtocolSafety.LostResponseOnlyCloses | agent-orchestrator/src/durable-pay-client.ts:76-108 | Losing the response of a prepare call loses nothing in the ledger, only the right to send; a refused call leaves a closed fence |
| ProtocolSafety.PassStepKeeps | agent-orchestrator/src/pay-sh-reconciler.ts:154-252 | Listing, scanning, asking for the blockhash, acting, deferring and crashing keep the invariant, however stale the listed row is |
| ProtocolSafety.PrepareRecords | backend/src/store.rs:12815-12964 | A committed prepare leaves its bytes on record and no verdict about them |
| ProtocolSafety.RunDelivers | backend/src/store.rs:13175-13230 | In every reachable ledger a delivered quote was delivered by a settled attempt of that quote |
| Ledger.PlanKeeps | backend/src/store.rs:12496-12551 | Asking for a plan keeps the ledger consistent and loses nothing final |
| Ledger.ListKeeps | backend/src/store.rs:12555-12575 | Listing a document under a quote keeps the ledger consistent |
| Ledger.BindKeeps | backend/src/store.rs:20149-20246 | Binding a quote to the rail keeps the ledger consistent |
| Ledger.BeginKeeps | backend/src/store.rs:12668-12811 | A begun attempt owns the fence of its unpaid quote and its job; everything else is kept |
| Ledger.PrepareKeeps | backend/src/store.rs:12815-12964 | Claimed to prepared, for the owner only; everything else is kept |
| Ledger.PrepareDirectKeeps | backend/src/store.rs:11030-11223 | The direct rail creates its attempt prepared, on an unfenced payable quote |
| Ledger.DeferKeeps | backend/src/store.rs:13022-13056 | A deferral changes the row it names and no ownership |
| Ledger.ReleaseKeeps | backend/src/store.rs:13063-13170 | A release ends the attempt, drops its fence and frees its job, consistently |
| Ledger.SettleKeeps | backend/src/store.rs:13175-13230 | Delivery, signature registration, attempt completion and fence removal together keep the ledger consistent |
| Ledger.HoldKeeps | backend/src/store.rs:13392-13534 | A hold moves job and prepared attempt to their ambiguous states and keeps every ownership |
| Ledger.FailKeeps | backend/src/store.rs:13270-13385 | Failing a job without an unresolved payment keeps the ledger consistent |
| Ledger.CompleteKeeps | backend/src/store.rs:13244-13268 | Completing a job keeps the ledger consistent |
| LedgerContract.BeginIsExclusive | backend/src/store.rs:12668-12811 | After a begin, the same attempt may begin again, while any other attempt on the quote is refused on both rails |
| LedgerContract.PrepareBindsTheBytes | backend/src/store.rs:12815-12964 | Preparing is idempotent for identical bytes and refused for any others |
| LedgerContract.FirstAbsenceIsKept | backend/src/store.rs:13022-13056 | The first observed absence keeps its time through later ones; a plain deferral never records one |
| LedgerContract.ReleaseExactly | backend/src/store.rs:13063-13170 | Exactly which live attempts can be released when: unprepared claims at once, prepared bytes two minutes after an absence |
| LedgerAdmission.BegunExactly | backend/src/store.rs:12668-12811 | A new payment is taken exactly when the job is between payments, lists the quote, the quote is bound, unpaid and unexpired, nobody is paying for it and the attempt id is new; and all that changes then |
| LedgerAdmission.BegunAgainExactly | backend/src/store.rs:12668-12811 | Beginning the same payment again is taken exactly while it is in progress and live, not while it is held, and changes nothing |
| LedgerAdmission.PreparedExactly | backend/src/store.rs:12815-12964 | Bytes are taken exactly for a claim whose job is not held, or again when they are the recorded ones; and all that changes then |
| LedgerAdmission.PreparedDirectExactly | backend/src/store.rs:11030-11223 | The direct rail takes a new payment exactly for an open quote outside every bundle that is not fully refunded, and that nobody is paying for |
| LedgerAdmission.PreparedDirectAgainExactly | backend/src/store.rs:11030-11223 | The same direct payment is recorded again exactly with the same bytes while its attempt is live and the quote could still be paid |
| LedgerAdmission.DeferredExactly | backend/src/store.rs:13022-13056 | Exactly the live attempts can be deferred; a deferral makes a direct attempt ambiguous and leaves a research attempt its status |
| LedgerAdmission.SettledExactly | backend/src/store.rs:13175-13230 | A live attempt with recorded bytes settles exactly under a signature that is not registered for another quote; and all that changes then |
| LedgerAdmission.ReleasedLeaves | backend/src/store.rs:13063-13170 | A release ends the attempt, its fence and the hold on its job, and keeps everything the attempt recorded |
| LedgerAdmission.HeldExactly | backend/src/store.rs:13392-13534 | Holding is taken exactly for a job between payments, which it leaves alone, and for one whose payment is live, which becomes ambiguous once prepared |
| LedgerAdmission.FailedExactly | backend/src/store.rs:13270-13385 | Failing is taken exactly while no payment is held; it closes an open job with refund and spent adding up to the budget |
| LedgerAdmission.CompletedExactly | backend/src/store.rs:13244-13268 | Completing is taken exactly when every document is delivered and no payment is open |
| LedgerAdmission.MintedExactly | backend/src/store.rs:12580-12663 | A quote is minted exactly under a new id, unpaid and off the rail |
| LedgerAdmission.PlannedExactly | backend/src/store.rs:12496-12551 | A plan is given out exactly for a job between payments |
| LedgerAdmission.ListedExactly | backend/src/store.rs:12555-12575 | A document of the bundle moves to the new quote exactly unless its old one is being paid or was delivered |
| LedgerAdmission.BoundExactly | backend/src/store.rs:20149-20246 | A quote is bound exactly when it is bound already or no other quote of its purchase is |
| LedgerAdmission.BundledExactly | backend/src/store.rs:11924-12295 | A bundle is taken exactly when it names each of its documents once, at a price, and nobody is buying one of them: no other bundle that is not fully refunded, and no quote that is bound, paid for, delivered or unexpired |
| LedgerContract.RecoveryCompletes | backend/src/store.rs:13063-13170 | An attempt whose payment never lands is observed absent, released, and its job can begin the quote again |
| LedgerContract.SettlementIsFinal | backend/src/store.rs:13175-13230 | After a settlement only the same settlement can be repeated; other signatures and new payments of the quote are refused |
| LedgerContract.UnresolvedPaymentBlocksTheEnd | backend/src/store.rs:13244-13534 | While an attempt is live its job can be held but neither failed nor completed |
| LedgerContract.LateFailureStrandsThePayment | backend/src/store.rs:13365-13380 | After a failure that was decided before the payment began, a live attempt can neither be settled nor released |
| LedgerContract.LateFailureExactly | backend/src/store.rs:13365-13380 | The unguarded update of a failing call leaves the ledger consistent exactly when no payment of the job has begun |
| LateFailure.RefundedAndPaid | backend/src/store.rs:13365-13380 | From a reachable state such a failure and two events of the chain: the job is refunded in full, its payment succeeded unsettled, and payments and refund exceed the budget |
| Reconciler.UnanimousSettlement | agent-orchestrator/src/pay-sh-reconciler.ts:634-642 | A settlement needs at least two origins that all name the same signature |
| ReconcilerRun.ProcessAttempts | agent-orchestrator/src/pay-sh-reconciler.ts:139-258 | The loop makes the calls of its attempts one after another, reports exactly the degraded ones and throws exactly when a deferral failed |
| ReconcilerRun.HandleAttempt | agent-orchestrator/src/pay-sh-reconciler.ts:155-251 | One attempt: its intended call, and the deferral in the catch block when there was none or it failed |
| ReconcilerRun.SettlementExactly | agent-orchestrator/src/pay-sh-reconciler.ts:157-201 | A settlement under a signature is asked for exactly when the row is valid, prepared, pays exactly the quote, carries its recorded blockhash, and two or more origins all show it settled under that signature |
| ReconcilerRun.AbsenceExactly | agent-orchestrator/src/pay-sh-reconciler.ts:185-239 | An absence is noted exactly when all that holds of the bytes, no origin found a success, two or more all say the blockhash expired, and none was noted before |
| ReconcilerRun.DegradedExactly | agent-orchestrator/src/pay-sh-reconciler.ts:165-230 | An attempt is reported as degraded exactly when bytes are missing or do not pay the quote or carry another blockhash, or the scans disagree or stay open, or a blockhash answer is missing; its call is then the plain deferral |
| ReconcilerRun.ThrowsExactly | agent-orchestrator/src/pay-sh-reconciler.ts:157-184 | Exactly a malformed row, or a message whose blockhash cannot be read, ends in the catch block before any call |
| ReconcilerRun.FirstCallExactly | agent-orchestrator/src/pay-sh-reconciler.ts:154-252 | The first call is the intended one or the deferral, a second one is made exactly after a refused intent, and the attempt counts as degraded for its intent or for its fallback |
| ReconcilerRun.CallsMeetTheirAnswers | agent-orchestrator/src/pay-sh-reconciler.ts:154-252 | Over the whole run the k-th call is the one the k-th answer of the ledger meets |
| ReconcilerRun.DegradedAre | agent-orchestrator/src/pay-sh-reconciler.ts:139-153 | The reported set holds exactly the ids of attempts handled as degraded |
| ReconcilerRun.ReleaseExactlyWhenJustified | agent-orchestrator/src/pay-sh-reconciler.ts:157-239 | A release is asked for exactly on an unprepared claim, or on a second, complete and unanimous absence with expired blockhash |
| ReconcilerRun.EveryAttemptIsAnswered | agent-orchestrator/src/pay-sh-reconciler.ts:240-251 | Each attempt gets one or two calls, the second only ever the plain deferral after a refused first |
| ReconcilerRun.AttemptsAreIndependent | agent-orchestrator/src/pay-sh-reconciler.ts:154-252 | What is done about one attempt does not depend on the others |
| ReconcilerRun.CallsAreProtocolSteps | agent-orchestrator/src/pay-sh-reconciler.ts:157-239 | The intended call does to the ledger what the protocol model lets a pass do in the phase reached |
| TransactionBytes.EncodeCompactU16 | payment-gateway/src/pay-sh-finality.ts:148-160 | The do-while loop writes the compact form for values up to 65535 and refuses the rest |
| TransactionBytes.DecodeShortVec | agent-orchestrator/src/pay-sh-reconciler.ts:726-736 | The bit-shifting loop reads at most three bytes and computes the little-endian base-128 value |
| TransactionBytes.EncodedHeaderDecodes | payment-gateway/src/pay-sh-finality.ts:148-160 | Decoding undoes encoding for every value from 0 to 65535, whatever bytes follow |
| TransactionBytes.HeaderBytesAreDetermined | agent-orchestrator/src/pay-sh-reconciler.ts:726-736 | Count and length determine the header bytes, canonical or not |
| TransactionBytes.MatchesPreparedTransaction | agent-orchestrator/src/pay-sh-reconciler.ts:688-724 | The slot loop computes the matching rule: empty slots are filled, signed ones and the message are kept |
| TransactionBytes.MatchesExactlyTheCompletion | payment-gateway/src/pay-sh-finality.ts:26-72 | With a canonical header, a decodable message and every signer but the fee payer present, the reconciler matches a candidate exactly when the gateway would complete the prepared bytes to it |
| TransactionBytes.CoincideExactly | payment-gateway/src/pay-sh-finality.ts:26-72 | Matcher and completion agree about all candidates and signatures exactly under those conditions |
| TransactionBytes.SignedMatches | agent-orchestrator/src/pay-sh-reconciler.ts:688-724 | Whatever landed, fully signed, with the prepared message matches the prepared bytes, however many slots were still empty |
| TransactionBytes.CompletionShape | payment-gateway/src/pay-sh-finality.ts:26-72 | When the gateway completes, the decoder included, and what it then writes; its own round-trip check never refuses |
| TransactionBytes.NoCompletionWithMissingSigner | payment-gateway/src/pay-sh-finality.ts:39-43 | With another slot empty the gateway refuses every receipt |
| TransactionBytes.MatcherFillsMissingSigners | agent-orchestrator/src/pay-sh-reconciler.ts:706-722 | With another slot empty the matcher still accepts bytes that fill it |
| TransactionBytes.MatchKeepsMessage | agent-orchestrator/src/pay-sh-reconciler.ts:688-724 | A match never crosses messages |
| TransactionBytes.FullySignedTransactionSignature | agent-orchestrator/src/pay-sh-reconciler.ts:674-684 | The known signature is the first one, and only when no slot is empty |
| Scan.ScanFinalizedTransactions | agent-orchestrator/src/pay-sh-reconciler.ts:497-574 | Against a truthful origin, absent means nothing finalized at the start matches, settled and failed name a matching record, and inconclusive has a stated obstruction, sizes included |
| Scan.WalkHistory | agent-orchestrator/src/pay-sh-reconciler.ts:525-574 | Paging newest-first through a history that grows at its head misses nothing that was finalized at the start |
| Scan.ScanPage | agent-orchestrator/src/pay-sh-reconciler.ts:542-566 | One page: every entry is looked up, still found unchanged, and matched |
| Scan.LookUpKnown | agent-orchestrator/src/pay-sh-reconciler.ts:503-524 | A fully signed transaction is looked up by its own signature, and nothing else can match it |
| ScanTruth.ScanAnswersTruthfully | agent-orchestrator/src/pay-sh-reconciler.ts:497-574 | For bytes signed as far as they are, one slot empty or several: what the scan concludes is what the protocol model lets the truthful origin say about the message |
| Finality.WaitForFinality | payment-gateway/src/pay-sh-finality.ts:74-110 | Ends within its poll budget and says yes exactly when some poll before the deadline was unanimous |
| Finality.FinalityMeansPaid | payment-gateway/src/pay-sh-finality.ts:112-135 | One origin's yes, when it is the truthful one: the prepared message landed successfully under the receipt's signature |
| Finality.UnanimityMeansPaid | payment-gateway/src/pay-sh-finality.ts:74-135 | A unanimous poll with the truthful origin among the views means that by then the payment had landed and succeeded |
| Finality.OnePollDecides | payment-gateway/src/pay-sh-finality.ts:84-105 | No poll is made after a unanimous one, nor after one that ended past the deadline |
| FetchFence.Fence.Fetch | agent-orchestrator/src/durable-pay-client.ts:45-108 | A paid request leaves exactly when its attempt is open, its credential complete and its record committed, and then right after that record |
| FetchFence.Fence.Enter | agent-orchestrator/src/durable-pay-client.ts:113-122 | An attempt id opens the fence once, and only when it is 32 bytes of lower-case hex |
| FetchFence.Fence.Leave | agent-orchestrator/src/durable-pay-client.ts:123-127 | Leaving closes exactly that attempt |
| FetchFence.AttemptIdExactly | agent-orchestrator/src/durable-pay-client.ts:113-122 | An attempt id is exactly 64 lower-case hexadecimal digits |
| Runner.RunResearchJob | agent-orchestrator/src/runner.ts:72-170 | The nested loops and the exception discipline make exactly the calls of the flat machine, for every environment and cut-off; RunnerCalls says which they are |
| Runner.TryBlock | agent-orchestrator/src/runner.ts:74-154 | The try block, exit by exit, against the machine |
| Runner.DeliverFirst | agent-orchestrator/src/runner.ts:79-153 | One resource with its bounded verification retries; leaving the loop undelivered never happens |
| RunnerSafety.EveryPrefixIsSafe | agent-orchestrator/src/runner.ts:72-170 | In every prefix a payment is begun only right after its challenge was verified and paid only right after its own committed begin; fail never comes with an unresolved paid call, hold only then, complete only after a plan with nothing left |
| RunnerCalls.EveryCallIsPlaced | agent-orchestrator/src/runner.ts:72-170 | Every call of every run stands where the calls before it allow: checks within the retries of the plan just reloaded, a begin after a good check under the id drawn for the resource, a payment of that very resource, the closing calls for their own reasons |
| RunnerCalls.PossibleIsTheRun | agent-orchestrator/src/runner.ts:72-170 | And nothing else is possible: any trace so placed, with no call after a final one, is the run |
| RunnerCalls.PaidUnderGoodPlan | agent-orchestrator/src/runner.ts:280-297 | Whatever is paid for is the first resource of a plan the run was answered with that is sound, names each quote once and fits into its positive budget |
| RunnerCalls.FirstPlanExactly | agent-orchestrator/src/runner.ts:72-77 | A run gives up after its first answer exactly when that is no such plan |
| RunnerCalls.OverExactly | agent-orchestrator/src/runner.ts:154-170 | A run is over exactly after fail, hold, an accepted completion or a payment that vouches nothing was sent; it succeeds exactly by completing |
| RunnerCalls.GoodCheckBegins | agent-orchestrator/src/runner.ts:89-105 | The first check that succeeds within the retries is followed by the begin of that quote |
| RunnerCalls.NoGoodCheckFails | agent-orchestrator/src/runner.ts:89-99 | When all retries and the first check fail, the run makes those checks, then fails, with no payment begun for the resource |
| RunnerSafety.SentWithinBudget | agent-orchestrator/src/runner.ts:280-297 | When a plan without the paid quote lists what fits beside it, the amounts sent in a run never exceed the funded budget |
| RunnerSafety.RunTerminates | agent-orchestrator/src/runner.ts:77-153 | When a plan without the paid quote is shorter, the run ends within a bound read off its first plan |
| RunnerSafety.DeliveredShrinks | agent-orchestrator/src/runner.ts:130-141 | A later plan without the paid document, its others re-quoted or not, is shorter and cheaper by at least that payment |
| RunnerSafety.ByDocumentShrinks | backend/src/store.rs:12551-12577 | A ledger that re-quotes undelivered documents but lists no delivered one again meets both conditions |
| RunnerSafety.RequotingIsAllowed | backend/src/store.rs:12551-12577 | A concrete ledger that re-quotes a document while another is bought meets that contract |
| RunnerSafety.EndsExactly | agent-orchestrator/src/runner.ts:77-153 | Under any ledger: a run ends exactly when only finitely many reloads show a delivery |
| RunnerSafety.WorksOnAcceptedPlans | agent-orchestrator/src/runner.ts:74-86 | The resource in work always comes from a plan this run was given and accepted |
| RunnerSafety.RelistingBreaksTheBudget | agent-orchestrator/src/runner.ts:280-297 | A ledger that lists another document in place of a delivered one makes the run spend twice its budget |
| Payout.DecisiveIsUnanimous | agent-orchestrator/src/refunds.ts:305-363 | Exactly when the verdict is paid, or absent or failed: at least two origins, all complete, none dissenting |
| Payout.DecisiveSurvivesDropping | agent-orchestrator/src/refunds.ts:305-363 | Dropping origins never changes a decisive verdict while two are left |
| PayoutContract.TenTriesAtMost | backend/src/store.rs:7399-7750 | In every run, requests executed late or twice, crashes and shared worker ids included, no claim is tried more than ten times |
| PayoutContract.ChosenExactly | agent-orchestrator/src/refunds.ts:200-252 | A worker builds a new transaction only on a leased row without any evidence, and looks at the chain only on a prepared row with all of it |
| PayoutContract.LookedExactly | agent-orchestrator/src/refunds.ts:93-128 | A look asks to settle or to abandon the very transaction looked at, or has it sent once more, and nothing else |
| PayoutContract.LeasedExactly | backend/src/store.rs:7399-7489 | A claim is leased exactly when it has tries left, nobody holds it, and it has either no evidence and no noted absence or whole evidence; the lease keeps all of that |
| PayoutContract.PreparedExactly | backend/src/store.rs:7491-7597 | A transaction is recorded exactly under a running lease without evidence, or again when it is the recorded one |
| PayoutContract.CompletedExactly | backend/src/store.rs:7599-7656 | A claim is settled exactly for its recorded transaction under a running lease, and again for the same one |
| PayoutContract.AbandonedExactly | backend/src/store.rs:7658-7750 | An abandoning report drops the evidence exactly on an absence noted since the transaction was prepared and two minutes ago; the first one only notes the absence, and its time stays |
| PayoutContract.GivenUpExactly | backend/src/store.rs:7658-7750 | A plain failure keeps a prepared transaction and forgets a noted absence; without one it costs a try |
| PayoutContract.SettledIsFinal | backend/src/store.rs:7399-7750 | No lease and no request changes a settled claim |
| PayoutSafety.NoClaimPaidTwice | agent-orchestrator/src/refunds.ts:73-198 | In every run, requests executed late or twice and shared worker ids included, whose recorded heights fall short by one block at most and whose abandoning reports are harmless where executed: the transactions of one claim that succeeded on chain are one |
| PayoutHeights.PaidTwiceExactly | agent-orchestrator/src/refunds.ts:140-182 | For any recorded and real height: a run with harmless reports that pays a claim twice exists exactly when the record falls short by more than one block |
| PayoutHeights.PaysTwice | agent-orchestrator/src/refunds.ts:140-182 | That run: two truthful absences two minutes apart, the transaction abandoned, a second one prepared, both landing |
| PayoutReports.PaidTwiceExactly | backend/src/store.rs:7658-7750 | With full heights, for each kind of effect an abandoning report can have: a run in which only reports of that kind do harm and a claim is paid twice exists exactly when the report notes or drops another transaction than the one looked at, or drops one after a look made before an absence was noted |
| PayoutReports.NotingAnother | backend/src/store.rs:7658-7750 | The run for a late report that notes an absence of a later transaction |
| PayoutReports.DroppingAnother | backend/src/store.rs:7658-7750 | The runs for a late report that drops a later transaction, its own look made before or after a noted absence |
| PayoutReports.DroppingAfterOneLook | backend/src/store.rs:7658-7750 | The run for two looks side by side: the claim still holds the transaction both looked at, the second report drops it, and it has been paid |
| PayoutReports.FreshIsCareful | backend/src/store.rs:7658-7696 | If every abandoning report were executed under the lease it was sent under, all of them would be harmless |
| PayoutSafety.SettledIsPaid | backend/src/store.rs:7599-7656 | In every such run a settled claim was paid on chain by the transaction it names |
| PayoutSafety.NewTransactionIsSafe | agent-orchestrator/src/refunds.ts:120-184 | In every such run the ledger takes a new transaction only for a claim without evidence whose earlier broadcasts are all dead |
| PayoutSafety.SecondAbsenceMeansDead | agent-orchestrator/src/refunds.ts:305-363 | A look whose status was read when the transaction had expired, and that shows no success, is final |
| PayoutReports.OneAbsenceIsUnsound | agent-orchestrator/src/refunds.ts:317-345 | A concrete run: both origins answer truthfully, the report says absence, and the payout has been paid |
| PayoutSafety.AbandonedTwiceIsFreed | backend/src/store.rs:7658-7750 | A claim reported absent under two leases, two minutes apart, loses its evidence and can be leased for a new transaction |
| PayoutSafety.RunKeeps | backend/src/store.rs:7399-7750 | The invariant of claims, passes, requests under way, network and chain holds in every such reachable state |
| PayoutSafety.PassStepKeeps | agent-orchestrator/src/refunds.ts:90-196 | Leasing, asking to prepare, broadcasting, looking, throwing and crashing keep the invariant |
| PayoutSafety.ExecuteKeeps | backend/src/store.rs:7500-7750 | Executing any request that is under way, however late, answered or not, keeps the invariant when its effect is harmless |
| PayoutSafety.MoveKeeps | backend/src/store.rs:15475-15486 | A claim that keeps its evidence, or drops that of a dead transaction, leaves every pass, request and broadcast sound |
| ExactTransfer.IsExactQuotedTransaction | agent-orchestrator/src/pay-sh-reconciler.ts:350-411 | True exactly when all instructions are allowed, the memo is there and the transfers are the quoted two as a multiset |
| ExactTransfer.CollectTransfers | agent-orchestrator/src/pay-sh-reconciler.ts:376-397 | The instruction loop: which lists it lets through, which transfers it collects and whether it saw the memo |
| ExactTransfer.SortedStringsCompareMultisets | agent-orchestrator/src/pay-sh-reconciler.ts:398-407 | Comparing the sorted strings is comparing the transfers as multisets |
| ExactTransfer.ExactPaymentEffect | agent-orchestrator/src/pay-sh-reconciler.ts:376-407 | Executing any accepted list changes every balance as paying platform and owner once each; the payer gives up the quoted amount |
| ExactInstructions.PassesExactly | agent-orchestrator/src/pay-sh-reconciler.ts:350-411 | Exactly the instruction lists that pass, told by building them: the platform's and the owner's checked transfer once each in any order, the memo of the resource, and besides them memos and bounded fee settings only |
| ExactInstructions.BudgetExactly | agent-orchestrator/src/pay-sh-reconciler.ts:412-424 | A compute-budget instruction is accepted exactly when it sets at most 200,000 units or a price of at most 10,000 |
| Selection.SelectWithinBudget | backend/src/search.rs:354-400 | Distinct authors, within count and budget; the last of the best states of the fullest bucket; when no front overflows, as many documents as any affordable bundle, and none of that size is worth more than the tolerances; empty exactly when nothing considered is affordable |
| Selection.BestWhereOverlapsAlike | backend/src/search.rs:354-400 | So the chosen bundle is the best of its size up to 0.0001 a considered candidate when one document is asked for, or every candidate overlaps alike with all ranked above it, as where no term is shared; and up to 0.18 more a further document for all inputs |
| Selection.UnlikeOverlapMisleads | backend/src/search.rs:402-434 | Whatever three sets of terms: where the third overlaps more with the first than with the second, scores and prices are given for which another pair is worth more than every choice of the selection, by what the overlap varies less 0.001 |
| Selection.SelectGreedily | backend/src/search.rs:342-353 | Without a budget: as many distinct authors as wanted or available, each the best next choice, the lowest-ranked of equals |
| Selection.AddCandidate | backend/src/search.rs:360-384 | The in-place table update, counts going down, computes the next column of the recurrence |
| Selection.FillTable | backend/src/search.rs:354-386 | The finished table holds the recurrence's buckets |
| Selection.Retain | backend/src/search.rs:426-434 | The retain pass keeps exactly the states that improve on every cheaper one kept |
| Selection.Prune | backend/src/search.rs:420-439 | Sort, retain, and the cap of 512 by utility |
| Selection.FrontIsPareto | backend/src/search.rs:420-434 | A front climbs strictly in price and by more than 0.0001 in utility, and whatever it drops is dominated |
| Selection.BucketIsAccounted | backend/src/search.rs:354-384 | Every state is a real bundle with its exact price and utility, within budget |
| Selection.BucketCoversBundles | backend/src/search.rs:354-384 | While no front overflows, every affordable bundle is matched by an equally large state, no dearer, and worth no less but for 0.0001 a pruning and the variation of overlap a further document |
| Selection.FewBundlesFit | backend/src/search.rs:435-438 | No front overflows when there are at most 512 bundles of each size |
| Selection.SmallBudgetFits | backend/src/search.rs:435-438 | No front overflows when the budget is below 512 |
| Selection.EmptyExactlyWhenNothingAffordable | backend/src/search.rs:386-399 | The fullest non-empty bucket is the empty bundle exactly when nothing considered is affordable |
| Selection.FirstPerAuthorIsDistinct | backend/src/search.rs:332-341 | The considered candidates name every author once, the best-ranked document each |
| Selection.FirstPerAuthorExactly | backend/src/search.rs:332-341 | A candidate is kept exactly when nobody ranked above it has the same author |
| Selection.ConsideredAreFirst | backend/src/search.rs:332-341 | The cut at eighty never drops a kept candidate above one it keeps |
| Selection.RedundancyIsLargest | backend/src/search.rs:402-408 | The redundancy of a candidate is its overlap with the most similar chosen document |
| Selection.JaccardBounds | backend/src/search.rs:411-418 | The overlap is symmetric, nothing exactly without a common term, and one exactly for the same terms |
| Selection.TruncationKeepsTheBest | backend/src/search.rs:435-438 | A front cut to 512 states loses none worth more than one it keeps |
| ResolveDecision.Resolve | backend/src/search.rs:162-262 | The matches are the chosen bundle, the quote the sum of their prices within budget, free liquidity is there exactly on a shortage of supply, a miss splits its target, each reason means what it says, and the fallback step is allowed |
| ResolveDecision.SelectCandidates | backend/src/search.rs:166-168 | The selection, with or without a budget, and when it finds full coverage |
| ResolveDecision.FallbackAllowedExactly | backend/src/orchestrator.rs:535-562 | The deterministic step is allowed for every response but one kind, which the resolver never gives |
| ResolveDecision.FallbackExactly | backend/src/orchestrator.rs:535-562 | In a sound answer a purchase is proposed exactly on full coverage, hybrid research exactly on a found part of a short supply, else a baseline; and which steps are allowed when |
| ResolveDecision.SuggestedPriceIsMedian | backend/src/search.rs:580-590 | The suggested unit price is a median of the matched prices |
| PageRank.PersonalizedPageRank | backend/src/authority.rs:14-94 | The arrays and loops compute forty normalised rounds of the damped mixture; RankFlow says what that is in terms of query and graph |
| RankFlow.TeleportShares | backend/src/authority.rs:28-38 | Teleport entry times total interest is the document's own positive query weight; next to no interest at all, every document gets the same |
| RankFlow.RanksFollowTheFlow | backend/src/authority.rs:67-91 | The ranks are the fortieth vector of the flow that starts at the query's shares: each next rank is 0.15 of the share plus 0.85 of what flows in, the weight of the edges from each document to this one over all it sends, or the share where it sends next to nothing |
| RankFlow.LimitSolvesTheFlow | backend/src/authority.rs:67-91 | The limit the ranks come within 0.0031 of is a distribution that solves the flow equation |
| RankFlow.WithoutEdgesSharesRank | backend/src/authority.rs:67-91 | Where no edge passes authority every rank is the document's share of the query's interest |
| RankFlow.WithoutEdgesMapIsShares | backend/src/authority.rs:93-94 | The same of the returned map, under the identifiers of the documents |
| RankFlow.ZippedPairs | backend/src/authority.rs:93-94 | The returned map holds exactly the known identifiers, each with the rank of the entry that stands for it |
| RankFlow.LinksCarry | backend/src/authority.rs:40-65 | The links of a node carry to each other one what the edges between the two documents pass, and in sum what leaves it |
| PageRank.CollectLinks | backend/src/authority.rs:40-65 | The edge loop collects, per node, the links of the edges that pass authority |
| PageRank.SpreadRanks | backend/src/authority.rs:75-87 | Sharing along links in place and collecting the dangling mass |
| PageRank.RankRound | backend/src/authority.rs:68-91 | One round in place equals one normalised step of the mixture, dangling mass included |
| PageRank.NormaliseInPlace | backend/src/authority.rs:125-135 | Division by the sum, or the uniform vector when there is none |
| PageRank.DanglingApart | backend/src/authority.rs:73-87 | Collecting the dangling mass apart and handing it out at the end is the same mixture |
| PageRank.WhoPassesAuthority | backend/src/authority.rs:96-123 | Authority passes exactly on a positive weight, a vetted provenance and a supporting relation |
| PageRank.MutualVouchingPassesLess | backend/src/authority.rs:50-61 | Two organic edges that vouch for each other pass at most 0.4 of the better one |
| RankFlow.VouchingCosts | backend/src/authority.rs:50-61 | An edge passes its effective weight, or a fifth of it exactly when it is organic, positive and answered by a positive edge back |
| RankFlow.WeightIsClamped | backend/src/authority.rs:96-123 | An effective weight grows in proportion to the edge weight up to two, and is nothing for a negative one |
| Convergence.OnlyRelevantEdgesCount | backend/src/authority.rs:40-65 | Two graphs with the same edges of positive effective weight between different documents rank alike, the reciprocity scan included |
| Convergence.DeletingIrrelevantEdges | backend/src/authority.rs:40-65 | Deleting self-links and edges of no effective weight changes no rank |
| Convergence.TransitionsOf | backend/src/authority.rs:23-65 | The teleport vector and every column of the transition are distributions |
| Convergence.IteratesAreDistributions | backend/src/authority.rs:67-91 | Every iterate is a distribution and keeps 0.15 of the teleport share; normalising it changes nothing |
| Convergence.AdvanceContracts | backend/src/authority.rs:67-91 | A round contracts L1 distances by 0.85 |
| Convergence.StartsConverge | backend/src/authority.rs:67-91 | Two starting distributions are within 2 * 0.85^k after k rounds |
| Convergence.FixedPointExists | backend/src/authority.rs:67-91 | There is a fixed point, and it is a distribution |
| Convergence.FixedPointIsUnique | backend/src/authority.rs:67-91 | There is no second one |
| Convergence.ResultIsNearFixedPoint | backend/src/authority.rs:67-91 | From any starting distribution, k rounds end within 2 * 0.85^k of the one fixed point |
| Convergence.RanksAreNearTheLimit | backend/src/authority.rs:14-94 | The ranks are a distribution, none below its teleport share, at L1 distance under 0.0031 from the limit |
| Vectors.Solve | backend/src/authority.rs:67-91 | The linear system behind the fixed point has a solution, found by elimination |
| CanonicalForm.CanonicalDecidesSameness | agent-orchestrator/src/settlement-invoice.ts:165-181 | Two values print alike exactly when they are equal up to key order at every depth |
| CanonicalForm.CanonicalReadsBack | agent-orchestrator/src/settlement-invoice.ts:165-181 | The canonical text is a JSON text; a reader written after the grammar gets the value back up to key order, every object with its keys climbing, by code units from the worker and by the bytes of UTF-8 from the ledger |
| CanonicalForm.NormalClimbs | backend/src/settlement_invoice.rs:295-307 | In the normal form the keys of every object climb, at every depth |
| JsonReader.TextReadsBack | agent-orchestrator/src/settlement-invoice.ts:165-181 | Reading a printed text after RFC 8259 gives the value |
| JsonReader.PrintReadsBack | agent-orchestrator/src/settlement-invoice.ts:165-181 | Reading a printed value from any text that goes on after it gives the value and the rest |
| JsonReader.NumberComesBack | agent-orchestrator/src/settlement-invoice.ts:169-172 | A number of the grammar ends where a text begins that cannot prolong it |
| JsonReader.NumbersAreGrammatical | agent-orchestrator/src/settlement-invoice.ts:169-172 | What counts as a number token is exactly a sentence of the number grammar: sign, integer without leading zeros, fraction, exponent |
| JsonReader.EscapesAreShortest | agent-orchestrator/src/settlement-invoice.ts:166-168 | No spelling of a unit in a JSON string is shorter than the one printed, and only hexadecimal ones are as long |
| JsonReader.PlainIsNotEscaped | agent-orchestrator/src/settlement-invoice.ts:166-168 | Text without control characters, quotes and backslashes is printed as it is, pairs of surrogates included |
| CanonicalForm.PrintersAgreeExactly | backend/src/settlement_invoice.rs:290-307 | The Rust and the TypeScript printer give the same text exactly when no object has two keys their orders put differently and no number is written differently |
| CanonicalForm.PrintersMayDisagree | backend/src/settlement_invoice.rs:295-307 | A private-use key beside one outside the basic plane: the two texts differ |
| CanonicalForm.NumbersMayDisagree | agent-orchestrator/src/settlement-invoice.ts:169-172 | A number written 1e+21 by one printer and 1e21 by the other: the two texts differ |
| JsonReader.PrintIsReadable | agent-orchestrator/src/settlement-invoice.ts:165-181 | No two values print as texts of which one goes on after the other |
| JsonReader.EscapedReadsBack | agent-orchestrator/src/settlement-invoice.ts:166-168 | Reading an escaped text, lone surrogates included, gives the text back and stops at its closing quotation mark |
| KeyOrder.RustOrderIsCodePointOrder | backend/src/settlement_invoice.rs:297-302 | The rank order of code units that stands for UTF-8 order is the order of code points |
| KeyOrder.WellFormedExactly | backend/src/settlement_invoice.rs:297-302 | The texts Rust can hold are exactly those in which every surrogate is paired |
| KeyOrder.RustOrderIsByteOrder | backend/src/settlement_invoice.rs:297-302 | And that is the order of the bytes of UTF-8, as the ledger compares keys |
| KeyOrder.OrdersDifferExactlyWhenSwapped | agent-orchestrator/src/settlement-invoice.ts:176-178 | Exactly which pairs of keys the two orders put differently |
| InvoiceCommitment.SameCommitment | agent-orchestrator/src/settlement-invoice.ts:94-99 | For every invoice past the safe-integer check and with 32-bit versions the worker hashes the very text the ledger hashed |
| InvoiceCommitment.SameCommitmentExactly | agent-orchestrator/src/settlement-invoice.ts:165-181 | For any invoice the two texts are the same exactly when parsing kept its expiry and versions |
| InvoiceCommitment.TextCommitsTheInvoice | backend/src/settlement_invoice.rs:281-287 | Two invoices have the same committed text only if they are equal in every field of every line |
| InvoiceCommitment.TextSaysTheInvoice | backend/src/settlement_invoice.rs:281-287 | Whoever reads the committed text finds every field of the invoice under its own name, the expiry and the versions as their numbers, and the line items in order |
| Decimal.ParsesExactlyThePrinted | agent-orchestrator/src/settlement-invoice.ts:183-186 | An amount text parses to a number exactly when it is how that number prints |
| Decimal.ParsersAgreeExactly | backend/src/settlement_invoice.rs:309-316 | The two amount parsers agree on a text exactly when it has no plus sign and stays within 64 bits |
| Invoice.ValidateSettlementInvoice | agent-orchestrator/src/settlement-invoice.ts:82-134 | Accepts exactly the agreement: line items are the pending resources once each, well split, with their totals and a bounded fee |
| Invoice.MatchItems | agent-orchestrator/src/settlement-invoice.ts:115-131 | The map-deletion loop succeeds exactly on a one-to-one correspondence and sums what it saw |
| Invoice.CorrespondenceByItems | agent-orchestrator/src/settlement-invoice.ts:115-127 | Looking items up one by one, without repetition, is being a permutation of the resources |
| Invoice.HexDigestExactly | agent-orchestrator/src/settlement-invoice.ts:188-190 | The texts that pass as digests are exactly how 32 bytes are written in lower-case hexadecimal digits |
| Invoice.HostedInvoicePasses | agent-orchestrator/src/settlement-invoice.ts:40-72 | A created invoice passes the validator exactly when its plan is sound |
| Invoice.CreatedCommits | agent-orchestrator/src/settlement-invoice.ts:40-72 | The created invoice commits the two digests under their own names, every resource at its own place with its snapshot and split, the sums of their amounts and fees, and no expiry later than any quote |
| Invoice.AcceptedIsCreated | agent-orchestrator/src/settlement-invoice.ts:40-134 | The accepted invoices of a sound plan are exactly the one the worker would create from the same digests, its line items in any order and with any usable expiry, under the committed hash |
| Invoice.AcceptedTotalIsShared | agent-orchestrator/src/settlement-invoice.ts:115-156 | An accepted total is what the owners and the platform get in sum, at least a unit for each line |
| LedgerInvoice.Validate | backend/src/settlement_invoice.rs:204-279 | Accepts exactly sound, distinct lines with matching totals; the aggregate ceiling is never what refuses, and an overflow error means the sum really overflows |
| LedgerInvoice.ValidateLines | backend/src/settlement_invoice.rs:229-264 | The line loop: running totals, duplicate detection and the first error |
| LedgerInvoice.NothingBlankIsCommitted | backend/src/settlement_invoice.rs:204-240 | No string of an accepted invoice is blank, wherever it stands in the text that is hashed |
| LedgerInvoice.PresentExactly | backend/src/settlement_invoice.rs:204-240 | The checks for missing fields refuse exactly a blank string in the header or the line |
| LedgerInvoice.AcceptedFeeIsBounded | backend/src/settlement_invoice.rs:251-254 | An accepted fee is at most a tenth of the total rounded up, plus one unit for every line after the first |
| LedgerInvoice.AcceptedUnderWorkerCeiling | agent-orchestrator/src/settlement-invoice.ts:102-108 | With single-unit shares or a single line, the worker's ceiling takes what the ledger took |
| LedgerInvoice.OnlyTheCeilingsDiffer | agent-orchestrator/src/settlement-invoice.ts:82-134 | For an unsigned, ledger-accepted invoice over the plan's resources, the worker accepts exactly when the fee is under its aggregate ceiling |
| LedgerInvoice.CeilingsSeparate | backend/src/settlement_invoice.rs:430-441 | Two lines of eleven with two units of fee each: an invoice the ledger accepts, over the plan's own resources, that the worker refuses |
| SchemaOrder.OrderedStatements | backend/src/db.rs:861-907 | Tables first, each once, then the rest in order; dependencies first unless the fallback ran, which happens exactly on a cycle of references |
| SchemaOrder.EmitTables | backend/src/db.rs:881-905 | The loop, for any choice among ready tables |
| SchemaOrder.Partition | backend/src/db.rs:869-877 | Splitting the batch, a repeated table replacing the earlier statement |
| SchemaOrder.RestKeepsOrder | backend/src/db.rs:869-877 | Everything that creates no table keeps its order among the rest |
| SchemaOrder.LastOneStays | backend/src/db.rs:869-873 | The last statement for a table is the one that stays |
| SchemaOrder.StuckHasCycle | backend/src/db.rs:884-898 | When no remaining table is ready, the remaining tables hold a cycle |
| SchemaOrder.TopologicalHasNoCycle | backend/src/db.rs:884-898 | A batch that could be ordered has no cycle |
| SchemaOrder.OrderedIsPermutationExactly | backend/src/db.rs:861-907 | The result is a permutation of the batch exactly when no table is created twice |
| SchemaOrder.RepeatedTableIsLost | backend/src/db.rs:869-873 | Two statements for one table: the earlier one is dropped |
| PaymentRouting.AlwaysInverse | payment-gateway/src/payment-routing.ts:51-103 | Over every sequence of remember, forget and prune the two maps stay inverse: at most one live attempt per resource |
| PaymentRouting.FoundWhileOnRecord | payment-gateway/src/payment-routing.ts:58-103 | After any sequence of operations an attempt is found exactly while on record: taken when neither it nor its resource was, since then not forgotten, and no cleaning came a day later |
| PaymentRouting.Tracker.Remember | payment-gateway/src/payment-routing.ts:58-78 | Refused exactly when the attempt or the resource is taken, else both maps gain their entry |
| PaymentRouting.Tracker.ForIdentity | payment-gateway/src/payment-routing.ts:84-87 | Finds the resource's attempt; an empty attempt id counts as none |
| PaymentRouting.Tracker.Forget | payment-gateway/src/payment-routing.ts:89-96 | Both entries go together; the guard of the second deletion always holds |
| PaymentRouting.Tracker.Prune | payment-gateway/src/payment-routing.ts:98-102 | Exactly the expired entries go, from both maps |
| PaymentRouting.RefusedUntilLatestDeadline | payment-gateway/src/payment-routing.ts:128-157 | A settled resource is refused exactly while its latest settlement is less than a day old or its quote has not expired, whatever was cleaned up |
| PaymentRouting.CleaningDropsTheExpired | payment-gateway/src/payment-routing.ts:131-157 | A check or a sweep drops exactly the expired settlements, and changes no other deadline |
| PaymentRouting.ReplayGuard.AssertNotSettled | payment-gateway/src/payment-routing.ts:131-143 | Refuses exactly an unexpired settlement, and drops an expired one |

## Left out

- Ledger.PlanKeeps: which unfenced quote a plan lists for a document is left open, and looking a quote up and listing it is one step; the x402 rail, deleted bundles and the invoice made beside a plan are not modelled.
- Ledger.BeginKeeps: rollback-recovery holds and lease deadlines of the original only refuse more.
- Ledger.PrepareKeeps: challenge, payer and wallet bindings of the prepared row are not modelled; the bytes and the blockhash are.
- Ledger.DeferKeeps: the `reconcile_after` schedule is left open, so passes may come at any time.
- Ledger.SettleKeeps: the ledger's own comparison of the signature with fully signed bytes only refuses more.
- Scan.ScanFinalizedTransactions: states what a scan of a truthful origin concludes; a lying origin may make it conclude anything, which the protocol model allows for.
- Selection.SelectWithinBudget: 32-bit float rounding of utilities is not modelled; sizes, prices and authors do not depend on it unless two utilities tie within it.
- PageRank.PersonalizedPageRank: float rounding is not modelled, so normalising is exact.
- ResolveDecision.Resolve: sums of prices are unbounded; the original's prices are small enough for 64 bits.
- Runner.RunResearchJob: delays and time-outs are answers of the environment; the message texts of errors are not modelled.
- PayoutSafety.RunKeeps: earning events and the refunded job that a settled payout finalizes are not modelled.
- FetchFence.Fence.Fetch: the fence handles one request at a time here; its interleavings are in the protocol model. Challenge validation is a parameter.
- Invoice.ValidateSettlementInvoice: an exception's text is not modelled, and expiries are integers.
- HTTP servers, routers, cookies, the Cloudflare proxy, Express wiring, the web interface and scripts.
- Ed25519, SHA-256, base58, base64 and the Solana message compiler, which are parameters or representations.
- Retrieval itself: embeddings, tokens, stop words, quality heuristics, freshness and the scores built from them.
- The preview validator of the ledger, which repeats the invoice validator with owner totals.
- Parsing of a transaction into instructions and of RPC answers into records.
- SQL text rewriting and finding table names in it; a statement carries its names here.
- Readiness timers, payout coverage counts, URL policy and environment parsing.
