# Procurement deal verification

A Dafny model of a procurement service in which a buyer's agent (A1) asks supplier agents (A2) for
quotes, ranks them, lets a human approve one, anchors the purchase in a hash-chained ledger, has an
oracle check it, and issues one payment draft that a human signs.

| files | component |
|---|---|
| `Domain`, `Wrappers` | records and value wrappers |
| `StableSorting`, `Ranking`, `RankingProperties` | hard constraints, rounded scoring, stable ranking |
| `Ledger` | the per-deal hash chain |
| `Envelopes`, `QuoteExchange`, `ExchangeRuns` | the signed RFQ/Quote exchange over an adversarial network |
| `Workflow`, `WorkflowOutcomes`, `DealProcess` | the procurement graph, how its inputs decide a run, and the background task that stores its states |
| `Store`, `StoreRefinement`, `Outbox`, `EventStream` | in-memory and SQL stores, outbox, event stream |
| `TrustService` | mandate policy, oracle and the two idempotency maps under concurrent calls |
| `DealService` | `approve`, `decide`, `sign_payment` |
| `PurchaseMachine`, `PurchaseInvariant`, `PurchaseRuns`, `PurchaseTheorems`, `PurchaseOrigins`, `PurchaseMessages`, `PurchaseVerdicts`, `PurchaseSignatures`, `StepRefinement`, `WitnessRuns` | all of it in one process, one await at a time |

Code that changes state is a class whose methods are proved against functions of the old state; what
the code promises is proved about those functions. The purchase machine interleaves any number of
workflow tasks with the one human step that holds the lock and lets any database call fail. As history it
carries the answers given, the quote each draft was created for, and four sets of deals: taken up by a
human step before the workflow had returned, with a failed put of an approval, with a failed append of
messages, with a failed publication. `StepRefinement` and `DealProcess.TaskFollowsProgram` show that the
methods, undisturbed, are runs of that machine; `WitnessRuns` runs it from the empty process into the
failures found.

Hashes are arbitrary functions: nothing assumes that they are injective, and where a result depends on
it the statement hands back the collision. Signatures are terms that name a key and a body. Amounts are
exact reals. Clocks, fresh identifiers, the network, the suppliers' replies and database failures are
inputs.

## Findings

- The put after the workflow loop can erase an approval, and a failed put loses one. The payment draft
  stays the only one of its deal, but a later approval of another quote is answered from the cache and
  stores a record that orders from one supplier and pays another (`LastPutErasesApproval`,
  `SecondApprovalIsCached`). `MixedRecordRun` gets there from the empty process. The record agrees iff
  the deal has no cached artifacts or they were approved under the same hash (`ApprovalAgreesIff`).
- The same last put can show a deal again that is already completed. Approved and signed for another quote
  it sends a second award, to a supplier that is not paid (`SecondSignature`, `DoubleAwardRun`). A signature
  tells every supplier right iff no award of the deal to another one is stored yet (`SignatureHeardIff`).
- `sign_payment` looks up the first quote with the selected id. It instructs the ordered supplier iff no
  other supplier's quote of that id came in before that supplier's own (`SignatureInstructsIff`);
  `DuplicateIdsRun` is a run in which it does not.
- The outbox is written after the deal, not with it. If the append fails the messages are lost for good,
  unless the workflow still has a result to put or has put it since (`UnsentForGood`, `UnsentRun`,
  `ResentRun`; for completed deals `EverySupplierHearsIff`). `docs/NFR.md:9-10` and
  `docs/adr/0005-use-sql-outbox-for-business-messages.md:19-20` promise that every message is persisted
  before publication and replayable.
- The record of a failed workflow is rebuilt on the old draft and drops the events stored since; the SQL
  store keeps them, the in-memory store does not. The stores agree after a workflow task iff nothing raises
  or already the first record cannot be made (`TaskAgreesIff`, `FreeOfferRun`).
- Nothing compares the supplier named in a quote with the agent that signed it, so a contacted supplier
  can have another one ranked with its own terms; ranked quotes name their senders iff nobody does that
  (`NamesAreRightIff`). In `ForeignNameRun` it is ordered from and paid under them.
- `docs/RANKING_POLICY.md:41-62` lists hard constraints and scores (active supplier, category, documents,
  completeness) that the comparison does not use; the model follows the code.
- The comparison divides by zero iff an eligible quote costs nothing (`RaisesIff`, `FreeOfferRun`).
- With `minimum_quotes` 0 a run without errors can fail (`ZeroMinimumFails`); configuration requires 2.

## Model

| member | source | states |
|---|---|---|
| PurchaseTheorems.OneDraftPerDeal | src/sber_a2a/services/deals.py:206-333 | In every reachable state, all approvals of a deal ever answered carry the same order id and payment draft id, whatever interleaved, was overwritten by the workflow's last put, or failed; different deals never share either id. |
| PurchaseTheorems.WholeRecord | src/sber_a2a/services/deals.py:201-481 | In every reachable state, a deal that no human step took up before its workflow had returned and whose put of an approval did not fail has decision, snapshot, intent, draft, order and anchor in agreement (an eligible evaluated quote, every term of it in the snapshot, hash, amount of unit price times quantity plus fee within the mandate, currency, payee, bank binding) once ordered, and no trace of a purchase before; rejected, changed and failed deals have no draft issued. Whether its messages were sent does not matter. |
| PurchaseTheorems.EveryRecord | src/sber_a2a/services/deals.py:201-481 | In every reachable state, whatever was lost: orders, drafts and intents only in the two ordered statuses; a signed draft, the six fulfilment steps and three different documents exactly in completed deals, the allowing policy and fraud decisions in ordered ones; `order_created` and `fulfilling` never occur. |
| PurchaseTheorems.SameQuoteAgrees | src/sber_a2a/trust_infrastructure/service.py:96-174 | An ordered record that names the quote its draft was created for agrees in all its parts. |
| PurchaseTheorems.AgreesIff | src/sber_a2a/services/deals.py:280-325 | Exactly when a stored purchase agrees: for every ordered deal of every reachable state, iff the quote it names is the one its draft was created for, unless the two payloads collide under the snapshot hash. |
| StepRefinement.ApprovalAgreesIff | src/sber_a2a/services/deals.py:201-333 | The same, decided before the call: in every reachable state with no step under way, the record an accepted approval stores agrees iff the deal has no cached artifacts or they were approved under the hash now presented; equally, iff they were made for the quote now approved; unless the two payloads collide. |
| WitnessRuns.AwaitingRun | src/sber_a2a/services/deals.py:100-141 | A run from the empty process to a deal that awaits approval of one of two offers with the last put of its workflow still to come. |
| WitnessRuns.MixedRecordRun | src/sber_a2a/services/deals.py:113-325 | A run from the empty process, through an approval made before the last put of the workflow, to a record that orders from supplier b and pays supplier a. |
| PurchaseTheorems.OracleNeverRefuses | src/sber_a2a/trust_infrastructure/service.py:117-151 | In every reachable state an anchored approval is within the mandate, so the oracle never rejects it: only the kill switch stops it. |
| PurchaseTheorems.DraftIsPermitted | src/sber_a2a/trust_infrastructure/service.py:96-106 | In every reachable state a deal has a payment draft only if its mandate permits, at some instant, to create the intent, anchor it, ask the oracle and create the draft, in the need's currency and category. |
| PurchaseOrigins.DraftHasOrigin | src/sber_a2a/trust_infrastructure/service.py:92-178 | Over every run: a deal has a payment draft, or a call past its entry, only if one step of the run let a call for it enter at an instant at which its mandate permitted all four operations, currency and category. |
| StepRefinement.ApprovalSucceeds | src/sber_a2a/services/deals.py:229-333 | In every reachable state an approval that passes its checks and the mandate's policy, for a deal without cached artifacts, ends with the deal requiring its signature for the quote approved and the draft issued for that quote, unless the ledger refuses the append or the kill switch is on; no other deal changes. |
| PurchaseTheorems.LastPutErasesApproval | src/sber_a2a/services/deals.py:113-141 | The put after the workflow loop erases an approval made before it, even a signed one: the deal awaits approval again while its draft and artifacts stay issued. |
| PurchaseTheorems.SecondApprovalIsCached | src/sber_a2a/trust_infrastructure/service.py:92-95 | The next approval, of whatever quote, is answered from the cache: the record it puts carries the first quote's intent, draft and anchor, and disagrees whenever the suppliers differ. |
| PurchaseTheorems.OrdersAreUnique | src/sber_a2a/services/store.py:82-95 | No two stored records of a reachable state carry the same order id, so the unique column refuses no put. |
| PurchaseTheorems.DisplayedHashIsAccepted | src/sber_a2a/services/deals.py:143-178 | Every reachable deal that awaits approval shows a snapshot, and approving its recommended quote with the displayed hash is never refused for the hash. |
| PurchaseTheorems.AwaitingSnapshot | src/sber_a2a/services/deals.py:483-524 | Every reachable deal that awaits approval shows every term of its recommended quote, the head of its ranking: price in total, SKU, quantity, currency, delivery, warranty, payment delay, risk and score, with the registered bank binding of the active supplier, both versions, and the hash of exactly these. |
| DealService.PayloadsEqualIff | src/sber_a2a/services/deals.py:483-503 | Two snapshots are hashed from the same payload iff deal, versions, binding and every term of the quote are the same; no score counts as a score of zero. |
| PurchaseTheorems.SignatureProgress | src/sber_a2a/services/deals.py:394-418 | A reachable deal that requires a signature is never incomplete: a signature is accepted iff mandate, confirmation, signer and draft id are right; with distinct quote ids the fulfilling supplier is the ordered one. |
| PurchaseTheorems.SignatureInstructsIff | src/sber_a2a/services/deals.py:413-416 | Exactly when the instructed supplier is the ordered one: for every reachable deal that requires a signature, iff no quote of the selected id from another supplier came in before the ordered supplier's first one. |
| WitnessRuns.DuplicateIdsRun | src/sber_a2a/services/deals.py:413-416 | A run from the empty process to a deal ordered from b whose accepted signature instructs a, both suppliers having answered under one quote id. |
| PurchaseTheorems.SignatureCompletes | src/sber_a2a/services/deals.py:419-481 | An accepted signature, undisturbed, stores the completed record, appends and publishes the messages that `DealMessagesExact` lists, and changes no other deal. |
| PurchaseTheorems.SqlPutIsMachinePut | src/sber_a2a/services/store.py:255-310 | A put to the SQL tables changes what readers see of its own deal only: the record as put, with the longer event list. |
| PurchaseRuns.NextKeeps | src/sber_a2a/services/deals.py:100-481 | Every step of a workflow task, of `approve`, `decide` and `sign_payment`, of the trust call, and every database failure keeps the invariant over records, both caches and the ledger. |
| PurchaseRuns.ExecuteKeeps | src/sber_a2a/services/deals.py:100-481 | So does every run of such steps in any order. |
| PurchaseMessages.OutboxHolds | src/sber_a2a/services/deals.py:682-751 | In every reachable state keys are unique and attempts are 1 exactly for published messages; a deal that is not completed has sent nothing, unless a human step took it up before its workflow had returned. |
| PurchaseVerdicts.EverySupplierHearsIff | src/sber_a2a/services/deals.py:457-481 | Exactly when a completed deal told its suppliers: in every reachable state, the winner has exactly one award, every other contacted supplier exactly one rejection and nobody else anything iff the stored awards of the deal are the winner's alone; the payment adapter has exactly one draft message iff an award is stored; what is stored is published unless a publication failed. For a deal that no human step took up before its workflow had returned, all is told iff the append of its messages did not fail, and published iff the publication did not fail either; its messages are then exactly the verdicts, the payment draft and one message per document to its source. |
| PurchaseVerdicts.SignatureHeardIff | src/sber_a2a/services/deals.py:419-481 | The same, decided before the call: in every reachable state, an accepted signature, undisturbed, leaves every supplier with exactly its due verdict iff no award of the deal to another supplier is stored yet; everything of the deal is then published, and no award is taken back. |
| PurchaseSignatures.SignatureSends | src/sber_a2a/services/deals.py:419-481 | Every accepted signature, undisturbed, in every reachable state and whatever was sent before: the outbox ends up with exactly one payment draft message of the deal, to `payment-adapter`, and one message per document of the stored record, to its source, each published at one attempt; every other message of the deal is the winner's award, another contacted supplier's rejection, or was stored before, and all are published. The record has three documents under the next unused ids, from the winner's exchange. |
| PurchaseVerdicts.SecondSignature | src/sber_a2a/services/deals.py:113-481 | While the last put of the workflow is still to come, every ordered deal can be approved and signed again for any quote: the award of that quote's supplier goes out beside the earlier ones, under the draft of the first approval. |
| WitnessRuns.DoubleAwardRun | src/sber_a2a/services/deals.py:113-481 | A run from the empty process to one completed deal whose award went to both suppliers, ordered from b, with a draft that pays a. |
| PurchaseVerdicts.UnsentForGood | src/sber_a2a/services/deals.py:465-475 | A failure between the put of the signed record and its messages loses them, unless the workflow still has a result to put or has put it since: in every later run, whatever is approved, decided or signed, nothing about the messages of the deal changes, verdicts, payment draft and documents alike, and a deal whose workflow is over stays completed as it is. For a deal that no human step took up before that, the outbox never holds anything of it and the payment adapter never gets its draft. |
| WitnessRuns.UnsentRun | src/sber_a2a/services/deals.py:465-475 | A run from the empty process to such a completed deal. |
| WitnessRuns.ResentRun | src/sber_a2a/services/deals.py:113-481 | A run in which the failure comes while the workflow still has a result to put, and the deal, shown, approved and signed again, sends an award after all. |
| DealService.ApprovalReplays | src/sber_a2a/services/deals.py:208-228 | After an approval, approving the same quote again returns the same ids and hash and changes nothing; any other quote is refused without a change. |
| DealService.SignatureReplays | src/sber_a2a/services/deals.py:396-402 | After a signature, any further signature request succeeds and changes neither record nor outbox. |
| DealService.DecisionIsFinal | src/sber_a2a/services/deals.py:343-387 | A rejected deal, or one with requested changes, can be neither approved, decided again nor signed. |
| DealService.ApprovalIsRecorded | src/sber_a2a/services/deals.py:286-333 | What an accepted approval stores is what it answers: quote, order, draft and hash, and a log continued by the approval, the anchor of its intent, the oracle and the draft. |
| DealService.SignatureIsRecorded | src/sber_a2a/services/deals.py:419-481 | What an accepted signature stores is the record it read with the draft signed, the six fulfilment steps, three documents of the winner's exchange and a continued log; nothing else of it changes. |
| DealService.LifecycleExact | src/sber_a2a/services/deals.py:565-680 | What a signature adds to the log: event by event iff it is the signature, the snapshot, the award, a rejection of another contacted supplier, the order, its draft, one of the six steps, a document, or the completion, which comes last. |
| DealService.PreviewIsApproved | src/sber_a2a/services/deals.py:143-178 | For a fresh draft the snapshot stored with the awaiting deal is the one `approve` recomputes for the recommended quote; with all other guards met it is approved iff the hash is the displayed one. |
| DealService.ExplanationIsNotHashed | src/sber_a2a/workflow/graph.py:256-273 | The explain node leaves the preview snapshot as it was. |
| DealService.ApprovalAccepted | src/sber_a2a/services/deals.py:229-269 | An approval reaches the trust service iff status, kind, approver, mandate in force and permitting, required role, eligible unexpired quote of an active supplier, and the hash of its current terms are all right. |
| StepRefinement.DecisionTakes | src/sber_a2a/services/deals.py:335-387 | In every reachable state a rejection or a request for changes of an awaiting deal is recorded iff the authorised person takes it under the displayed hash, which is always there, and the mandate names a required role; otherwise nothing changes. Taken after the workflow has returned, it stands in every later run and no purchase is ever recorded. |
| DealService.AnnouncedAsSent | src/sber_a2a/services/deals.py:565-745 | The log of a signed deal announces an award or a rejection for a supplier, or a document, iff the outbox messages contain it, and ends with the completion. |
| DealService.GetAfterPut | src/sber_a2a/services/store.py:336-363 | A stored record reads back whole, with the events of the log. |
| DealService.DealService.Approve | src/sber_a2a/services/deals.py:201-333 | Computes the approval step: which check refuses first, the trust call, the put, the answer, the whole new state. |
| DealService.DealService.Decide | src/sber_a2a/services/deals.py:335-387 | Computes the decision step: approval, rejection or request for changes, with its refusals and its new state. |
| DealService.DealService.SignPayment | src/sber_a2a/services/deals.py:389-481 | Computes the signature step: replay, refusals, signed record, appended and published messages, which `DealMessagesExact` and `SignatureSends` list one by one. |
| DealService.DealService.ProcessDraft | src/sber_a2a/services/deals.py:100-141 | The workflow task puts one record per state of the graph and one more at the end, of the last state or of the failed draft. |
| StepRefinement.ApproveIsRun | src/sber_a2a/services/deals.py:201-333 | An undisturbed `approve` is a run of the machine with the same records, ledger, caches and outbox. |
| StepRefinement.DecideIsRun | src/sber_a2a/services/deals.py:335-387 | An undisturbed `decide` is a run of the machine. |
| StepRefinement.SignIsRun | src/sber_a2a/services/deals.py:389-481 | An undisturbed `sign_payment` is a run of the machine. |
| DealProcess.PutsExtendIff | src/sber_a2a/services/deals.py:113-140 | The puts of the workflow extend the stored events iff nothing raises or already the draft's own record cannot be made: the failed record is rebuilt on the draft's events. |
| DealProcess.TaskAgreesIff | src/sber_a2a/services/deals.py:113-140 | Exactly when the SQL store and the in-memory store agree on every deal after a workflow task, if they did before: iff nothing raises or already the draft's own record cannot be made. |
| DealProcess.QuietTaskRefines | src/sber_a2a/services/deals.py:113-140 | A workflow task in which nothing raises leaves the SQL store and the in-memory store in agreement on every deal. |
| DealProcess.RaisedTaskFails | src/sber_a2a/services/deals.py:129-141 | A workflow task in which something raises ends with the submitted draft, failed, with one error and one event more, whatever it has put before. |
| DealProcess.ProcessDelivers | src/sber_a2a/services/deals.py:113-141 | A workflow task in which nothing raises ends awaiting approval iff there are no errors, then on an approvable comparison with its preview; the last put repeats the one before it. |
| DealProcess.TaskFollowsProgram | src/sber_a2a/services/deals.py:100-141 | The machine's task, left alone, ends with the same last record as the program's and changes nothing else. |
| TrustService.OneDraftPerKey | src/sber_a2a/trust_infrastructure/service.py:92-178 | Under every interleaving of any calls, cut off or not, all calls that return for a key return the same draft, and calls for different keys different ones. |
| TrustService.DraftsAreWriteOnce | src/sber_a2a/trust_infrastructure/service.py:154-168 | Neither a ledger row nor an issued draft is ever replaced. |
| TrustService.OracleCompleteness | src/sber_a2a/trust_infrastructure/service.py:96-151 | For a prepared call on a verifying ledger, whatever is appended in between, integrity and intent hash hold and the oracle passes iff amount and currency are within the mandate. |
| TrustService.ClearedIff | src/sber_a2a/trust_infrastructure/service.py:117-153 | In every state of the invariant an anchored call is cleared iff it is within the mandate and the kill switch is off; otherwise the oracle stops it first. |
| TrustService.AdvanceKeeps | src/sber_a2a/trust_infrastructure/service.py:83-178 | Every stage of every call keeps the ledger verifying, the caches coherent and drafts distinct, and only adds to the state. |
| TrustService.FirstDraftIsIssued | src/sber_a2a/trust_infrastructure/service.py:154-174 | A cleared call that finds no earlier draft returns artifacts of its own quote: amount, currency, payee, bank binding, snapshot hash and anchored intent all match. |
| TrustService.CallSucceeds | src/sber_a2a/trust_infrastructure/service.py:83-178 | A prepared call on an unused key, within the mandate, whose append is not refused, returns unless the kill switch is on. |
| TrustService.PoliciesExact | src/sber_a2a/trust_infrastructure/service.py:96-106 | A purchase passes policy iff the mandate permits `create_purchase_intent`, `anchor_intent`, `oracle_process` and `create_payment_draft`, in the need's currency and category. |
| TrustService.EnterIff | src/sber_a2a/trust_infrastructure/service.py:92-115 | A call that is not cached is denied by policy, without any change, iff the mandate does not permit one of the four operations, the currency or the category; it gets past its entry iff it is permitted, approved under the snapshot's hash and from an active supplier. |
| TrustService.ClearsIff | src/sber_a2a/trust_infrastructure/service.py:117-153 | In any state, tampered ones included, an anchored call is cleared iff the chain of its deal verifies, anchor, intent, approval, registry and policies are in order, amount and currency are within the mandate, and the kill switch is off. |
| TrustService.DraftsArePermitted | src/sber_a2a/trust_infrastructure/service.py:83-178 | Under every interleaving of calls, every draft pays the quote of a call of its key, within the limit, whose mandate permitted all four operations at some instant. |
| TrustService.FrozenWithReasons | src/sber_a2a/trust_infrastructure/service.py:132-145 | The oracle's record allows the purchase iff all checks pass iff it lists no failed check. |
| TrustService.FoundSupplierIsActive | src/sber_a2a/trust_infrastructure/service.py:52-61 | Only a registered, active supplier is found; absence is reported iff no entry has the id, and inactivity otherwise. |
| TrustService.UninterruptedIsScheduled | src/sber_a2a/trust_infrastructure/service.py:83-178 | A call that nobody interrupts is one of the schedules. |
| TrustService.CheckMandate | src/sber_a2a/trust_infrastructure/service.py:66-81 | Allows an operation iff the mandate permits it, the currencies match and the category is allowed. |
| TrustService.TrustedInfrastructureService.EnterCall | src/sber_a2a/trust_infrastructure/service.py:92-115 | Cache lookup, policies, hash check and supplier, up to the first await. |
| TrustService.TrustedInfrastructureService.AskOracle | src/sber_a2a/trust_infrastructure/service.py:120-153 | The nine checks, their verdict and the kill switch. |
| TrustService.TrustedInfrastructureService.GetOrCreateDraft | src/sber_a2a/trust_infrastructure/service.py:154-174 | Creates a draft only if the key has none. |
| TrustService.TrustedInfrastructureService.ProcessApprovedPurchase | src/sber_a2a/trust_infrastructure/service.py:83-178 | The whole call: result, ledger and both maps; a mandate that does not permit one of the four operations is refused and nothing changes. |
| Ledger.TamperEvidence | src/sber_a2a/trust_infrastructure/ledger.py:145-165 | Two non-empty verifying chains that end in the same hash have the same deal, length, payloads and links, or a computed pair of preimages collides. |
| Ledger.VerifiesIffBuilt | src/sber_a2a/trust_infrastructure/ledger.py:145-165 | `verify` accepts a list iff it is what `append` builds from its payload hashes. |
| Ledger.InterleavedAppends | src/sber_a2a/trust_infrastructure/ledger.py:72-116 | After any interleaving of appends to any deals every deal verifies, is numbered 1..n and equals what its own accepted payloads build. |
| Ledger.RunExtendsChains | src/sber_a2a/trust_infrastructure/ledger.py:72-116 | Appends only extend a deal's chain, by exactly its accepted payloads. |
| Ledger.OtherChainsUntouched | src/sber_a2a/trust_infrastructure/ledger.py:118-143 | An append leaves every other deal's chain as it was. |
| Ledger.AppendKeepsVerifying | src/sber_a2a/trust_infrastructure/ledger.py:72-116 | An append keeps every chain verifying. |
| Ledger.ConflictIsCollision | src/sber_a2a/trust_infrastructure/ledger.py:24-38 | An append refused by the unique constraint exhibits a hash collision. |
| Ledger.DatabaseHashChainAnchor.AppendPayload | src/sber_a2a/trust_infrastructure/ledger.py:72-116 | Appends the linked anchor, or changes nothing when refused. |
| Ledger.DatabaseHashChainAnchor.Verify | src/sber_a2a/trust_infrastructure/ledger.py:145-165 | The early-return loop decides whether every anchor links. |
| Ranking.ScoreIsHalfUp | src/sber_a2a/domain/ranking.py:17-21 | A score is the value rounded half up to hundredths and no other number is; below 0 it is 0, above 100 it is 100. |
| Ranking.ScoreMonotone | src/sber_a2a/domain/ranking.py:17-21 | Scoring preserves order. |
| Ranking.ViolationsExact | src/sber_a2a/domain/ranking.py:24-55 | A quote is rejected for exactly the hard constraints it violates. |
| Ranking.EligibleIff | src/sber_a2a/domain/ranking.py:66-81 | A quote is eligible iff it violates none. |
| Ranking.RejectionReasons | src/sber_a2a/domain/ranking.py:24-55 | The program's list of reasons, in its order. |
| Ranking.CompareQuotes | src/sber_a2a/domain/ranking.py:58-145 | The program's loops, minima, scores, sort and recommendation compute the comparison, whose scores `ScoresAre` gives from the quotes, including the undefined division for an eligible quote that costs nothing. |
| RankingProperties.ScoresAre | src/sber_a2a/domain/ranking.py:83-116 | What the scores of an eligible item are, from the quotes alone: price times its cost is 100 times the least eligible cost, and 100 exactly for a cheapest quote; delivery times its days is 100 times the least eligible days (or 100 if that is 0), and 100 at no days; warranty is 100 n/24 and full exactly from 24 months on, payment terms 100 n/30 and full exactly from 30 days on; risk takes off 1 per hundredth; each is rounded, weighted, summed and rounded again. |
| RankingProperties.ExplanationIs | src/sber_a2a/domain/ranking.py:126-145 | With an eligible quote the explanation names supplier, score, total cost, currency and delivery of the recommended head; without one nothing is recommended. |
| RankingProperties.RecommendationIsBest | src/sber_a2a/domain/ranking.py:126-141 | The recommendation is the head: highest total score, then lowest cost, then earliest input. |
| RankingProperties.RaisesIff | src/sber_a2a/domain/ranking.py:83-96 | The comparison raises iff an eligible quote costs nothing. |
| WitnessRuns.FreeOfferRun | src/sber_a2a/domain/ranking.py:83-96 | A whole workflow task with a free offer of a and a priced one of b: three nodes run, the rank node raises, the failed draft is put, and the two stores, which agreed before, no longer do. |
| RankingProperties.RankedIsTheStableSort | src/sber_a2a/domain/ranking.py:126-134 | The output is the one stable descending arrangement of the evaluated input: a permutation, eligible first, ties in input order. |
| RankingProperties.KeyFaithful | src/sber_a2a/domain/ranking.py:126-134 | The sort key, which sends 0 to -1, orders scored quotes by score, then cost. |
| RankingProperties.RoundingBound | src/sber_a2a/domain/ranking.py:93-116 | Stored and exact totals differ by at most 0.005 per unit of weight plus 0.005, at most 0.0100005. |
| RankingProperties.GapDecides | src/sber_a2a/domain/ranking.py:93-134 | An exact gap of more than 0.020001 always decides the order. |
| RankingProperties.DominanceTheorem | src/sber_a2a/domain/ranking.py:83-134 | An eligible quote at least as good in every criterion scores at least as much in each component and in total, and outranks the other if strictly cheaper. |
| RankingProperties.RecommendationUndominated | src/sber_a2a/domain/ranking.py:126-141 | No strictly cheaper dominating quote is passed over. |
| RankingProperties.IneligibleAreInert | src/sber_a2a/domain/ranking.py:66-141 | Quotes lists with the same eligible quotes give the same scores and order of those, the same recommendation and explanation. |
| RankingProperties.DeletingIneligible | src/sber_a2a/domain/ranking.py:66-81 | Deleting any set of ineligible quotes keeps the eligible ones. |
| RankingProperties.PermutedInput | src/sber_a2a/domain/ranking.py:126-134 | Permuting the input changes the order only among full ties. |
| ExchangeRuns.AcceptedQuoteAnswersItsRfq | src/sber_a2a/suppliers/remote.py:83-179 | Over every run of a network that replays, drops and injects: an accepted quote of an honest supplier answers exactly the RFQ the buyer sent it, which it verified, and is, term by term, its catalog's offer for the SKU and quantity of that intent, valid for 30 minutes from the answer on. |
| ExchangeRuns.RunKeeps | src/sber_a2a/suppliers/a2a_service.py:83-139 | Every run keeps: each signature of an honest key is a sent RFQ or a recorded answer, and every accepted quote agrees. |
| ExchangeRuns.ExchangeSucceeds | src/sber_a2a/suppliers/remote.py:83-179 | From every state of such a run an exchange can still succeed: an RFQ to a supplier that lists the SKU, delivered before its expiry, is answered, and the answer, delivered before its own, is accepted for exactly the catalog's quote. |
| QuoteExchange.RequestQuote | src/sber_a2a/suppliers/remote.py:69-179 | One request end to end: after any transport failures the first RFQ that reaches a paired supplier in time makes `create_quote` return, at that attempt, the catalog's quote term by term, signed field by field in the artifact, or no quote if the SKU is not listed; the queue gets working, artifact and completion. |
| QuoteExchange.RfqAcceptedIff | src/sber_a2a/suppliers/a2a_service.py:88-97 | A2 answers an RFQ iff a registered agent signed exactly it, under its registered key, for this supplier and audience, unexpired, and it is a `send_rfq` with an intent. |
| QuoteExchange.QuoteAcceptedIff | src/sber_a2a/suppliers/remote.py:158-179 | An attempt yields a quote iff the last data part carries an unexpired envelope with it, signed with the supplier's registered key, addressed to the buyer in its audience under this attempt's correlation id; it yields none iff that part says so. |
| QuoteExchange.SupplierQuoteExecutor.Execute | src/sber_a2a/suppliers/a2a_service.py:69-161 | The ordered checks and the exact queue events of each outcome. |
| QuoteExchange.CollectArtifact | src/sber_a2a/suppliers/remote.py:146-159 | The nested loops keep the last data part. |
| QuoteExchange.LastPartIff | src/sber_a2a/suppliers/remote.py:146-159 | What they keep is the data part that no other one follows, by response, artifact and part, and nothing iff there is none. |
| QuoteExchange.FirstDataIff | src/sber_a2a/suppliers/a2a_service.py:79-83 | A2 reads the first data part of a message, and none iff there is none. |
| QuoteExchange.CreateQuote | src/sber_a2a/suppliers/remote.py:54-81 | The bounded retry: transport and value errors are retried, the first other outcome decides, else the last error; which attempts yield quotes is `QuoteAcceptedIff`. |
| Envelopes.CreatedVerifies | src/sber_a2a/shared/security/envelopes.py:40-101 | What an agent creates verifies for exactly the addressed recipient and audience until the expiry. |
| Envelopes.AlteredRejected | src/sber_a2a/shared/security/envelopes.py:83-101 | A changed body or signature is rejected. |
| StoreRefinement.RunSimulates | src/sber_a2a/services/store.py:255-363 | For every sequence of extending puts, both stores hold the same records. |
| StoreRefinement.PutAgreesIff | src/sber_a2a/services/store.py:255-310 | After a put the stores agree on the deal iff its events extend those stored. |
| StoreRefinement.LogIsAppendOnly | src/sber_a2a/services/store.py:276-303 | For any puts the event log is append-only and numbered 1..n. |
| StoreRefinement.PutGrowsLog | src/sber_a2a/services/store.py:276-303 | A put grows its deal's log to the longer list and leaves other deals' logs alone. |
| StoreRefinement.GetRefines | src/sber_a2a/services/store.py:312-318 | After extending puts `get` returns what the in-memory store returns. |
| StoreRefinement.ListRefines | src/sber_a2a/services/store.py:320-334 | With distinct update times every page of `list` is the in-memory page. |
| StoreRefinement.ListIs | src/sber_a2a/services/store.py:60-75 | What the in-memory `list` returns, from the records alone: a page of all records with the wanted status, each once, newest first. |
| Store.InMemoryDealStore.Put | src/sber_a2a/services/store.py:49-51 | Inserts or replaces in place. |
| Store.InMemoryDealStore.List | src/sber_a2a/services/store.py:60-75 | Newest first, filtered, one page. |
| Store.SQLAlchemyDealStore.Put | src/sber_a2a/services/store.py:255-310 | One transaction: row, version, missing event rows, or nothing on a conflict. |
| Store.SQLAlchemyDealStore.List | src/sber_a2a/services/store.py:320-334 | A page of some query result ordered by update time with exactly the matching records. |
| Outbox.AppendConserves | src/sber_a2a/services/store.py:365-395 | Keys stay unique, stored rows are kept, every key of the batch is stored. |
| Outbox.AppendIdempotent | src/sber_a2a/services/store.py:365-395 | Appending a batch twice is appending it once, duplicates included. |
| Outbox.PublishConserves | src/sber_a2a/services/store.py:422-441 | Publishing touches one aggregate and counts one attempt per published message. |
| Outbox.ExactlyOneVerdict | src/sber_a2a/services/deals.py:693-745 | Each contacted supplier and the winner gets exactly one verdict, the award iff it is the winner. |
| Outbox.DealMessagesExact | src/sber_a2a/services/deals.py:692-745 | A signed deal sends a message iff it is the winner's award, a rejection of another contacted supplier, the payment draft to `payment-adapter`, or a document to its source, under its key and not yet sent. |
| Outbox.OutboxTable.AppendOutbox | src/sber_a2a/services/store.py:365-395 | The loop of inserts. |
| Outbox.OutboxTable.MarkOutboxPublished | src/sber_a2a/services/store.py:422-441 | The loop of updates. |
| EventStream.Generate | src/sber_a2a/api.py:279-308 | Exactly the events of the last poll after the requested position were emitted, and the stream completes at the first poll whose deal is no longer a draft. |
| EventStream.TailIsConsecutive | src/sber_a2a/api.py:279-296 | The ids are after+1, after+2, … and id k carries event k. |
| EventStream.SqlPollsGrow | src/sber_a2a/services/store.py:255-318 | Whatever is put between polls, what `get` returns to them only grows. |
| Workflow.RunDelivers | src/sber_a2a/workflow/graph.py:55-316 | Every run that does not raise reaches finalize once, as the last of at most six nodes; errors grow, events strictly extend; it awaits approval iff there are no errors, then on enough quotes and an eligible recommendation within both limits. |
| Workflow.AwaitingIsVetted | src/sber_a2a/workflow/graph.py:55-254 | No run awaits approval unless the mandate permitted requests, category and limit, the contacts are exactly the serving suppliers of its list, at least the minimum, and every quote was answered by one of them and carries the trusted risk; it then went through all six nodes. |
| WorkflowOutcomes.DiscoveredAt | src/sber_a2a/workflow/graph.py:94-120 | The contacts are the registry's entries of the category on the mandate's list, each once and in its order. |
| WorkflowOutcomes.AnsweredAt | src/sber_a2a/workflow/graph.py:125-217 | The answers are the quotes of the agents that sent one, each once and in the agents' order. |
| WorkflowOutcomes.RunDecides | src/sber_a2a/workflow/graph.py:55-316 | How a run ends, from its inputs: it raises iff it reaches the ranking (mandate in force, permitting and covering category and limit; enough contacts and answers) with an answer that has no trusted risk, or that fits and costs nothing; otherwise it awaits approval iff it reaches the ranking and some answer fits: SKU, quantity, currency, valid after the instant of the ranking, deliverable by the deadline from its day on, within both limits, from a listed supplier. |
| WorkflowOutcomes.AwaitingFits | src/sber_a2a/workflow/graph.py:222-273 | What an awaiting run recommends: its comparison is that of the answers with trusted risks at the instant and day of the ranking, with the narrated explanation; an item is eligible iff it fits, and the recommended head does. |
| WorkflowOutcomes.RankIff | src/sber_a2a/workflow/graph.py:222-254 | The rank node raises iff an answer has no trusted risk or fits and costs nothing, and otherwise reports that no quote passed iff no answer fits. |
| WorkflowOutcomes.AwaitingIsLogged | src/sber_a2a/workflow/graph.py:55-300 | What an awaiting run adds to the log, event by event: validation, contacts, one request per contacted agent, its failure or its quote, the counts, the recommendation, its explanation and the end. |
| Workflow.NamesAreRightIff | src/sber_a2a/suppliers/remote.py:162-179 | Exactly when ranked quotes name their senders: in every run that ends awaiting approval, iff no contacted supplier answered with a quote in another supplier's name. |
| WitnessRuns.ForeignNameRun | src/sber_a2a/suppliers/remote.py:162-179 | A run from the empty process to an order from a, with a draft that pays a, under a quote that b sent in the name of a and that a never made. |
| Workflow.StepKeeps | src/sber_a2a/workflow/graph.py:302-316 | Each node and its route establish what the next node relies on. |
| Workflow.NodeExtends | src/sber_a2a/workflow/graph.py:55-300 | Every node keeps the errors and strictly extends the events. |
| Workflow.FinalizeDecides | src/sber_a2a/workflow/graph.py:279-300 | The last node awaits approval iff there are no errors. |
| Workflow.ZeroMinimumFails | src/sber_a2a/workflow/graph.py:116-120 | With a minimum of zero quotes and no supplier a run without errors still fails. |
| Workflow.ValidateMandate | src/sber_a2a/workflow/graph.py:55-89 | The four checks of the mandate. |
| Workflow.DiscoverSuppliers | src/sber_a2a/workflow/graph.py:94-120 | The suppliers of the category and the mandate's list, in registry order. |
| Workflow.CollectQuotes | src/sber_a2a/workflow/graph.py:125-217 | One RFQ per registered supplier, quotes and events in that order. |
| Workflow.RankQuotes | src/sber_a2a/workflow/graph.py:222-254 | Trusted risks replace the suppliers' own, a missing one raises, then the comparison at the node's instant and day (`AwaitingFits`, `RankIff`). |

## Left out

- Ed25519, SHA-256 and canonical JSON: signatures are symbolic (section 5.1 of RFC 8032 is not modelled), hashes are parameters, and a payload stands for its encoding; the textual forms of equal decimals are not distinguished.
- Decimal's 28-digit context: arithmetic is exact, rounded only where the code quantizes.
- Time zones and the passage of time inside one atomic stage: each stage reads one instant.
- `created_at`, `anchor_id`, `verification_id`, `snapshot_id`, display names, `vat_rate`, reasons of approval, event texts, and the contents of fulfilment steps and documents: only counts, ids, sources and presence are kept; supplier-controlled quote ids are unconstrained.
- SQL engine, sessions, schema repair and migrations: tables are values and each `begin()` block is one atomic step that either happens or does not.
- LangGraph: the graph is its nodes and routing functions; checkpointing and prefetching are not modelled, an exception of the stream is (`TaskRaises`).
- Task cancellation during the human steps: they fail at database calls only; `OneDraftPerKey` covers calls cut off at any stage.
- Process restarts: both idempotency maps live in memory, so one-draft results hold within one process lifetime, from an empty store; `resume_incomplete` is not modelled.
- Resumed drafts in the preview results: an older snapshot in the draft is kept by `_record_from_state` (modelled), but the preview results are about fresh drafts.
- Suppliers' registry and configuration changes at run time: the controls are fixed; an unsigned "no quote" reply makes no claim and is not part of the agreement result; dishonest suppliers may sign anything for themselves.
- Keys of the idempotency maps and the outbox are named by their parts instead of formatted strings.
- FastAPI routes, A2A SDK and protobuf, MCP, LLM adapters, frontend, onboarding, outbound URL policy, evidence bundles, `ToolRuntime`: wrappers and input/output.
- StoreRefinement.ListRefines: asks for distinct update times, because the SQL query leaves the order of ties open.
- RankingProperties.DominanceTheorem: is about lists in which every eligible quote costs something, because the comparison divides by its cost; `RaisesIff` covers the rest.
