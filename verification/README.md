# BAZAAR: the life of a payment, verified

BAZAAR lets AI agents buy things under a spending mandate that a human signed. This
project models the authorization boundary of its backend in Dafny and proves what the
boundary promises, over every input and every run:

- the **gate** (`Gate`): eleven ordered checks over a signed mandate, a merchant record
  and two facts about the database; the first failing check names the reason;
- the **service** (`Service`, `Repository`, `Schema`): the gate run over live tables, with
  a nonce reservation, a transaction row, rollback and downgrade on a refused insert, a
  receipt and an audit entry;
- **settlement and webhooks** (`Settlement`, `Webhooks`): the gateway order, captures,
  failures, late and duplicate events;
- the **audit log** (`AuditLog`): the hash chain and its verifier;
- **answers and files** (`Answers`, `OnFile`): what the answers of settlement and webhooks
  tell about the row, and which agents are frozen and which mandates are on file after any run;
- **runs** (`Runs`): any sequence of registering, freezing, mandate writes,
  authorizations, settlements, reconciliations and webhook events. The clock, the risk
  signal, the gateway's answers and all random ids are arbitrary inputs of each step;
- **races** (`Races`, `RacedLog`, `RacedReplay`, `RacedMoney`, `RaceExamples`): any number
  of calls in flight, authorizations split into a reading phase and separate database
  transactions, every log entry split into reading the tip and inserting, interleaved with
  all other traffic;
- the **rails that feed the gate**: catalog and seller (`Catalog`), negotiation
  (`Negotiation`), issuer and buyer (`Purchase`), price attestations (`Attestation`), the
  AP2 cart (`Ap2`), and the red-team case generators (`RedTeam`).

What the source does step by step is a method or a class here (`Database`,
`AuthorizationService`, `RazorpayClient`, `CatalogStore`, `Random`, `Gate.Authorize`,
`VerifyChain`, `Settle`, `Reconcile`, `HandleEvent`, `Negotiate`, the generators), proved
equal to a function on values; the theorems about runs are about those functions.
`Conn` carries what one connection sees and what a rollback would return to, because two
of the results below turn on a write that is still pending when an exception escapes.

Money is an integer number of paise (Python integers do not wrap). Signatures, token
decoding, canonical JSON and the hash are function values; the only facts assumed about
them stand in the `requires` clauses of the lemmas that need them (`KeyPair`,
`Unforgeable`, `MerchantKeyPair`, `ControlFree`, `Readable`, `Digest`). `Codecs` constructs
a canonical form and a reader that meet what the log theorems ask, for any hash.

## Main results

1. `Money.SettledMoneyIsBounded`, and `RacedMoney.RacedMoneyIsBounded` however calls overlap:
   a settled row was added by a call the gate allowed, then got an order, then a capture, in
   that order, for the record's price, under a cap a pinned issuer signed, and carries the
   payment that capture names. Each of the three calls is judged in the state it found.
2. `Replay.LogReplaysToTables`: the stored log entries alone rebuild the transactions
   table, or two entries are an explicit hash collision; `RacedReplay.RacedLogReplaysIff`:
   when exactly they still do so after a race.
3. `Delivery.SameNewsSameStatus`: order and multiplicity of payment news do not matter.
4. `Races.RacesCannotDoubleAuthorize` and `Races.RacedReasonIsRightIff`: what races cannot
   break, and when exactly the reason they leave behind is the right one.
5. `Orders.NeverRecharge` with `Orders.OrderedOnceIff`, `StatusGraph.KeyBuysOnce` and
   `StatusGraph.RunFollowsGraph`.
6. `AuditLog.PinnedIff`: when the chain binds its log, exactly; `RacedLog.RacedLogAcceptedIff`:
   when overlapping calls keep it intact, exactly.
7. `RedTeam.GenerateAdversarial`: the labels of the red-team cases are right for every draw.
8. `Purchase.HonestPurchaseIsStoredIff`: an honest purchase clears, and when it is stored.
9. `OnFile.FrozenIff` with `OnFile.FrozenBuysNothing`: over any run the gate is told that an
   agent is frozen exactly while a freeze stands, and a frozen agent buys nothing.
10. `Answers.ReconcileAnswers`, `Answers.SettleAnswers`, `Answers.EventAnswers`: the answer of
   each settling call is right about the row.

## Where a promise holds only under a condition

For each of these the exact condition is proved, and where the failing input is not plain
from it, one is given.

- The log's comments say the 0x1f separator makes event type and payload unambiguous
  (`ledger/audit_log.py:3-4`). That holds exactly when neither contains a raw 0x1f
  (`SplitIsUniqueIff`, `PinnedIff`, which construct the second reading). Canonical JSON
  never does, so reachable logs are safe.
- `append_event` reads the tip before its insert begins a transaction. With overlapping
  calls, authorizing and settling ones alike, the log stays intact exactly when no entry
  lands between the two (`RacedLogAcceptedIff`, `NoAppendBetweenIff`); two calls that read
  one tip fork the chain (`TwoReadersFork`, `ForkExample`).
- A call logs after it has written its row, so with overlapping calls the entries of one
  transaction can stand in another order than its changes. Once all calls have logged, the
  log replays to the tables exactly when the last entry about each transaction tells the
  latest of its stages (`RacedLogReplaysIff`). A settlement that logs before the
  authorization of its own row leaves an intact log that replays to a transaction without
  an order (`OutOfOrderExample`). An authorization entry overtaken by one settlement entry
  does no harm once a later one follows, so this is weaker than asking every authorization
  entry to come first.
- `authorize` catches two exceptions only. An approval whose row insert fails on the CHECK
  or a foreign key escapes with its nonce reserved, and the next commit of any call makes
  the reservation permanent. The nonces stay exact after every call exactly when no call
  takes that branch (`ExactUnlessLeak`, `NoncesStayExactIff`, `LeakBecomesPermanent`,
  `LeakExample`). The service's "always" for receipt and audit entry does not cover it.
- The two except branches are meant for races. Without any, each still fires on its exact
  condition, a mandate that is not on file and a used transaction id, and the call then
  raises, since its blocked row meets the same constraint (`ExceptBranchesFireIff`).
- Downgrades name the right reason whenever nothing comes between attempt and blocked row
  (`DowngradeNamesTheRightReason`). In a race a stored approval or downgrade is right
  exactly when its nonce was used or its mandate on file at the commit, and a block for a
  used key exactly when the nonce was not used by the time its row was inserted
  (`RacedReasonIsRightIff`).
  `reserve_nonce` reports an unknown mandate as a used nonce, and a mandate saved just
  after that makes the wrong reason permanent (`WrongReasonExample`).
- The guard against a second order looks at whether the stored order id is truthy. One
  order stays the only one exactly when the gateway's id is not empty, repeated ids or not
  (`OrderedOnceIff`, `EmptyOrderIdRecharges`); an order id stays on one row exactly when no
  order is created with an id another row carries (`OneTransactionPerOrderIdIff`).
- A cart without a transaction id of its own gets a random one at each presentation and
  can be spent again, one with an id cannot (`SecondPresentationIff`).
- `propose_upsell` says it returns the base sku if nothing better fits. It returns another one
  exactly when another active item of the category fits at no lower price and the base is
  inactive, above the cap, cheaper, or of the same price and later in sku order
  (`UpsellIsMadeIff`).
- A negative floor price can push the agreed price below zero; the gate allows that
  purchase and the database refuses its row. It is stored exactly when three times the
  floor plus the list price is not negative (`HonestPurchaseIsStoredIff`,
  `NegativeFloorExample`).
- Webhook processing is described as moving state forward once. An event changes its row in
  place exactly when the row had failed, the event reports a failure and it names another
  payment (`ChangedInPlaceIff`, `SecondFailureExample`); a failed row may still settle.
- The schema's comment on `entry_hash` leaves out event type and separator; the model
  follows the code.

## Model

| member | source | states |
|---|---|---|
| Gate.Authorize | backend/bazaar/verifier/gate.py:38-180 | the checklist with its early returns gives the decision, reason and recorded checks of the specification Verdict |
| Gate.CheckAuthority | backend/bazaar/verifier/gate.py:60-111 | its first five checks block with the specified verdict, or hand over the five passed checks |
| Gate.ChecksTellTheVerdict | backend/bazaar/verifier/gate.py:50-66 | the recorded checks are the checklist in order, all passed on an approval, all but the last on a block, and the last one's reason is the answer |
| Gate.BlocksWith | backend/bazaar/verifier/gate.py:50-50 | a failing check names the reason as soon as every check before it passes |
| Gate.ReasonSpelledOut | backend/bazaar/verifier/gate.py:60-172 | the reason is that of the first of the eleven conditions, written out on the input, that does not hold, and OK when all do |
| Gate.VerdictCases | backend/bazaar/verifier/gate.py:60-180 | ALLOW if and only if signature, pin, agent, time, freeze, provenance, record, price, category, cap, nonce and key are all in order; never REVIEW; OK exactly on ALLOW |
| Gate.VerdictOnLaterReads | backend/bazaar/verifier/gate.py:160-172 | on later reads an approval can only turn into NONCE_REPLAY, or else DUPLICATE_TRANSACTION, and does exactly when that read says so |
| Gate.BodySignsEveryField | backend/bazaar/models.py:94-105 | two mandates have the same signed body exactly when id, agent, cap, currency, categories up to order, return policy and times agree |
| Gate.OnlySignedFieldsMatter | backend/bazaar/models.py:94-115 | two mandates with equal key, signature and signed body get the same decision, reason and check list for every transaction and record |
| Gate.CategoryOrderIsIrrelevant | backend/bazaar/models.py:101-101 | reordering the categories changes neither the signed body nor the verdict |
| Gate.RiskOnlyTightens | backend/bazaar/verifier/gate.py:183-206 | of a gate verdict a risk signal keeps a block as it is and the checks untouched; the effective decision is ALLOW exactly on a clearing transaction without escalation, REVIEW exactly on one under a review signal, and the reason is the hold exactly when a clearing one was escalated |
| Gate.RiskTakesTheStricter | backend/bazaar/verifier/gate.py:183-206 | for any result and signal the tightened decision is the stricter of the result's and the signal's, with the reason of a hold exactly when the signal escalates a non-block |
| Sorting.SortedIffPermutation | backend/bazaar/models.py:101-101 | two category lists have the same sorted form exactly when one is a reordering of the other |
| Sorting.SortedSameMembers | backend/bazaar/models.py:101-101 | sorting preserves membership both ways |
| Sorting.LeqAtFirstDifference | backend/bazaar/models.py:101-101 | the order of two strings is that of the first place where they differ, a prefix first |
| AuditLog.VerifyChain | backend/bazaar/ledger/audit_log.py:81-94 | accepts exactly when every link holds, otherwise reports the number of the first entry that breaks, as a wrong previous hash exactly when that hash is not the tip before it |
| AuditLog.AppendsKeepAccepted | backend/bazaar/ledger/audit_log.py:47-70 | any number of appends keeps an accepted log accepted, numbers the entries 1, 2, 3 and on, adds the events in order and leaves everything before in place |
| AuditLog.PrefixAccepted | backend/bazaar/ledger/audit_log.py:13-16 | every prefix of an accepted log is accepted, so truncation goes unseen |
| AuditLog.SplitIsUniqueIff | backend/bazaar/ledger/audit_log.py:31-34 | event type and payload can be read back from the hashed bytes if and only if neither contains the separator byte |
| AuditLog.ChainBinding | backend/bazaar/ledger/audit_log.py:30-35 | equally long accepted logs with the same last hash agree entry by entry, or two of their entries are an explicit hash collision |
| AuditLog.PinnedIff | backend/bazaar/ledger/audit_log.py:3-11 | length and last hash pin an accepted log, collisions aside, if and only if all its entries are free of the separator |
| AuditLog.RewriteIsReported | backend/bazaar/ledger/audit_log.py:8-11 | rewriting the type or payload of entry k is reported at entry k, with its number and a wrong entry hash, unless old and new message collide, and then nowhere |
| Schema.ById | backend/bazaar/razorpay/settlement.py:31-35 | the first row with the transaction id, or the number of rows when there is none |
| Schema.ByOrder | backend/bazaar/razorpay/webhooks.py:61-66 | the first row carrying the order id, or the number of rows |
| Repository.Database.RegisterAgent | backend/bazaar/db/repository.py:25-30 | an unknown agent is added unfrozen, a known one is left as it is, and everything pending is committed |
| Repository.Database.SetAgentFrozen | backend/bazaar/db/repository.py:33-35 | sets the flag of a known agent and commits |
| Repository.Database.SaveMandate | backend/bazaar/db/repository.py:44-54 | inserts or replaces the mandate and commits, or fails on a negative cap or unknown agent and changes nothing |
| OnFile.FrozenIff | backend/bazaar/db/repository.py:25-40 | over any run an agent is on file exactly once registered, and the gate is told it is frozen exactly when a freeze since its first registration was not undone by a later unfreeze |
| OnFile.FrozenBuysNothing | backend/bazaar/verifier/gate.py:98-101 | from the freeze of an agent on file, through any run that does not unfreeze it, no call of that agent is approved, and one whose mandate is in order is blocked for the freeze |
| OnFile.UnfrozenIsNotBlocked | backend/bazaar/db/repository.py:33-35 | after an unfreeze, through any run without another freeze of that agent, no call of it is blocked for a freeze |
| OnFile.MandateOnFileIff | backend/bazaar/db/repository.py:44-54 | over any run the mandate on file under an id is the last one saved under it with a non-negative cap and a registered agent |
| Repository.Database.ReserveNonce | backend/bazaar/db/repository.py:68-73 | succeeds exactly for an unused nonce under a stored mandate, leaving the reservation uncommitted |
| Repository.Database.RecordTransaction | backend/bazaar/db/repository.py:77-96 | inserts exactly the row, uncommitted, or reports the first violated constraint (CHECK, UNIQUE, foreign key) and changes nothing |
| Repository.Database.SetTransactionSettlement | backend/bazaar/db/repository.py:99-111 | sets status and, where given, order and payment id of the one row, and commits |
| Repository.Database.SaveReceipt | backend/bazaar/db/repository.py:115-123 | stores the receipt under its id and commits |
| Repository.Database.AppendEvent | backend/bazaar/ledger/audit_log.py:47-70 | appends the entry chained to the tip and commits, or refuses an entry hash the log already holds |
| Service.AuthorizationService.Create | backend/bazaar/verifier/service.py:43-59 | construction is refused exactly without a non-empty trusted set and without the explicit opt-out |
| Service.AuthorizationService.Authorize | backend/bazaar/verifier/service.py:61-141 | state and answer after a call, returned or raised, are those of the specification Authorized |
| Service.AuthorizationService.Record | backend/bazaar/verifier/service.py:84-116 | reservation, insert, commit, rollback, downgrade and the blocked row leave the connection as the specification CommitPhase says |
| Service.OneAttemptOneRecord | backend/bazaar/verifier/service.py:84-136 | without races a completed call carries exactly the gate's verdict and the stricter of it and the risk signal as effective decision, and leaves one row, one receipt and one log entry, each spelled out column by column, the entry's number as audit number, and a nonce exactly on ALLOW |
| Service.ReusedTransactionIdRaises | backend/bazaar/db/repository.py:77-96 | DuplicateTransaction escapes exactly for a used transaction id with a storable amount, and then every stored table is as before, the reserved nonce included |
| Service.CompletesIff | backend/bazaar/verifier/service.py:95-116 | a call completes exactly when amount, transaction id, mandate and agent satisfy the schema |
| Settlement.RazorpayClient.CreateOrder | backend/bazaar/razorpay/client.py:54-68 | one order for the given amount and receipt per successful answer, none on an exception |
| Settlement.FirstCapture | backend/bazaar/razorpay/settlement.py:79-80 | the first payment that is captured for exactly the amount |
| Settlement.Settle | backend/bazaar/razorpay/settlement.py:38-66 | creates one order for exactly the row's amount exactly when the row is allowed, not held, not settled and without an order; state and answer as specified |
| Settlement.Reconcile | backend/bazaar/razorpay/settlement.py:69-92 | the loop settles the row on the first exact capture and on nothing else, creates no order, and changes nothing when the gateway raises |
| Webhooks.HandleEvent | backend/bazaar/razorpay/webhooks.py:46-105 | every branch, in its order, leaves the state and answer of the specification Handled |
| Answers.ReconcileAnswers | backend/bazaar/razorpay/settlement.py:69-92 | a returned answer says settled exactly when the row is settled after the call, order exists exactly when it has an order and is not settled, not authorized exactly without row or order, with the row's order id and amount |
| Answers.SettleAnswers | backend/bazaar/razorpay/settlement.py:38-66 | the answer says not authorized, settled, order exists or order created exactly for those rows; only the last changes the row, to pending with the new order id |
| Answers.EventAnswers | backend/bazaar/razorpay/webhooks.py:46-105 | settled, duplicate, mismatch, failed and unknown are answered each exactly under its condition on event and row; only settled and the failure of an unsettled row change it, to the payment the event names |
| Runs.StepEffect | backend/bazaar/verifier/service.py:84-136 | every call changes the transactions by at most one added or one updated row and the log by at most the entry that tells it |
| Runs.UpdateFacts | backend/bazaar/db/repository.py:99-111 | settling calls touch allowed rows only, never held or settled ones, and change status, order and payment only, each one step forward |
| Runs.UpdatesTellTheNews | backend/bazaar/razorpay/webhooks.py:70-103 | an updated row belongs to an order created for it, to the first exact capture the gateway shows or to an event about exactly its order and amount; row and log entry carry what that news says, payment id included, the former id staying only when it names none |
| Runs.AddedFacts | backend/bazaar/verifier/service.py:92-136 | an added row has a new id, no order, and a status its own log entry determines |
| Runs.RunKeepsInv | backend/bazaar/db/schema.sql:69-95 | every run keeps all row constraints, unique ids, unique nonces and keys among ALLOW rows, and nothing but reserved nonces ever pending |
| StatusGraph.StepFollowsEdge | backend/bazaar/razorpay/webhooks.py:76-103 | one call leaves a row alone or moves it along one edge: authorized to pending, pending to failed or settled, failed to settled, with the two listed ways of staying in place |
| StatusGraph.ChangedInPlaceIff | backend/bazaar/razorpay/webhooks.py:96-103 | an event changes a row without moving it if and only if the row had failed, the event is a failure for its order, and it names another payment |
| StatusGraph.SecondFailureExample | backend/bazaar/razorpay/webhooks.py:96-103 | a concrete second failure that changes the payment id only |
| StatusGraph.RunFollowsGraph | backend/bazaar/db/repository.py:99-111 | over any run blocked, held and settled rows are final, a settled row keeps its payment, amount, decision, nonce and key never change, an order is never exchanged |
| StatusGraph.RiskHoldIsForEver | backend/bazaar/verifier/service.py:86-98 | for any risk signal a new ALLOW row is authorized exactly when the effective decision is ALLOW; otherwise it is held and no later run gives it an order or settles it |
| StatusGraph.KeyBuysOnce | backend/bazaar/db/schema.sql:4-6 | after an approval, and any run in between, no call with the same nonce or the same idempotency key is approved again |
| Money.EveryRowHasStory | backend/bazaar/razorpay/webhooks.py:70-88 | in every reachable state each ALLOW row was added by a call the gate allowed, each order created by a later call, each settlement made by a still later call that saw the capture, whose payment id the row carries |
| Money.SettledMoneyIsBounded | README.md:50-50 | a settled row was added by a call the gate allowed at the record's price within a cap in a body a pinned issuer signed, a later call created its order for that amount, a still later one saw exactly that amount captured and settled it under that payment's id |
| RacedMoney.EveryRacedRowHasStory | backend/bazaar/verifier/service.py:69-116 | in every reachable state of every race each ALLOW row was added by the commit of a call allowed on its own reads, each order created after that, each settlement made after both on a capture, whose payment id the row carries |
| RacedMoney.RacedMoneyIsBounded | README.md:50-50 | however calls overlap, a settled row comes from a call the gate allowed on its own reads at the record's price within a cap in a body a pinned issuer signed, its order and its exact capture following in that order, and it carries that capture's payment id |
| Orders.NeverRecharge | backend/bazaar/razorpay/settlement.py:6-9 | over any run in which no order is created with an empty id, no transaction has two orders; each order is for the exact amount of an allowed row not on hold, and each row carries the one created for it |
| Orders.OrderedOnceIff | backend/bazaar/razorpay/settlement.py:52-60 | after a settle call that creates an order, no later run creates another for the transaction if and only if the gateway's id is not empty |
| Orders.OneTransactionPerOrderIdIff | backend/bazaar/razorpay/webhooks.py:61-66 | no order id is on two rows throughout a run if and only if each created order gets an id no other row carries |
| Orders.OrdersAreDistinct | backend/bazaar/razorpay/settlement.py:6-9 | with both conditions orders differ in transaction and in order id |
| Orders.EmptyOrderIdRecharges | backend/bazaar/razorpay/settlement.py:52-60 | a row that still needs an order, as after an empty id, is ordered for again by one more settle call |
| Orders.EventTouchesOnlyItsOrder | backend/bazaar/razorpay/webhooks.py:58-66 | an event changes no row but one carrying the order id it names |
| Delivery.StatusIsMaximum | backend/bazaar/razorpay/webhooks.py:75-103 | after any run the status of a row with an order is the maximum, under pending, failed, settled, of its start and what each call implies alone |
| Delivery.SameNewsSameStatus | backend/bazaar/razorpay/webhooks.py:75-103 | two runs with the same set of webhook events and reconcile answers, in any order and multiplicity, end in the same status |
| Replay.LogReplaysToTables | backend/bazaar/ledger/audit_log.py:8-11 | with fresh event ids, folding the stored log entries rebuilds amount, decision, reason, status and order id of every transaction, and no others, or two entries of the run are an explicit hash collision |
| Replay.ReachableLogIsPinned | backend/bazaar/ledger/audit_log.py:81-94 | every reachable log passes the verifier and is pinned by its length and last hash, collisions aside |
| Codecs.CodecExists | backend/bazaar/ledger/audit_log.py:49-51 | for any hash there is a canonical form free of the separator with a reader that gives back event id and event, as the log theorems ask |
| Replay.RefusedOnlyOnCollision | backend/bazaar/db/schema.sql:107-107 | the log refuses an entry only on an explicit collision with an earlier entry or for the very same bytes |
| Replay.SameBytesSameId | backend/bazaar/ledger/audit_log.py:49-51 | and the very same bytes only when an earlier call drew the same event id |
| Nonces.ExactMeansOneToOne | backend/bazaar/db/schema.sql:69-73 | exact nonces are the set of the ALLOW rows' nonces, no two of which share a nonce or a key |
| Nonces.ExactUnlessLeak | backend/bazaar/verifier/service.py:95-108 | a call keeps the nonces exact if and only if it is not an approval of a negative amount or unregistered agent that dies after reserving |
| Nonces.NoncesStayExactIff | backend/bazaar/verifier/service.py:95-116 | after every call of a run the nonces are exactly those of the ALLOW rows with nothing pending, if and only if no call takes that branch |
| Nonces.LeakBecomesPermanent | backend/bazaar/db/repository.py:33-35 | a leaked reservation is stored for good by the next commit, here a freeze, with no ALLOW row behind it |
| Nonces.LeakExample | backend/bazaar/verifier/service.py:95-108 | a concrete three-call run that ends with a reserved nonce and no transaction |
| Races.RacesCannotDoubleAuthorize | backend/bazaar/verifier/service.py:4-9 | in every interleaving no nonce and no key is in two ALLOW rows and the nonces table is exactly the nonces of the ALLOW rows |
| Races.RacedRecordAgrees | backend/bazaar/verifier/service.py:118-136 | in every race the receipt a call saves and the entry it goes on to log tell the decision and reason of its stored row and what the call presented |
| Service.ExceptBranchesFireIff | backend/bazaar/verifier/service.py:101-108 | without races each except branch fires exactly on a missing mandate, or on a used transaction id, and the call then raises |
| Races.DowngradeNamesTheRightReason | backend/bazaar/verifier/service.py:95-116 | with nothing between attempt and blocked row, an approval on stale reads is recorded exactly when schema and tables allow a row, always with the decision and reason the gate gives at commit |
| Gate.BlockOnLaterReads | backend/bazaar/verifier/gate.py:160-172 | a block keeps its reason on later reads unless it was for the key and the nonce is used by then |
| Races.HistoryIsTrue | backend/bazaar/verifier/service.py:69-116 | what a flight carries is what it read when it began and found at its first write, the commit of an approval or the insert of a blocked row |
| Races.RacedReasonIsRightIff | backend/bazaar/verifier/service.py:69-116 | in every race a call whose row is stored carries the gate's decision and reason on the tables at its own first write, if and only if a stated condition on nonce, mandate and first reason holds |
| Races.WrongReasonExample | backend/bazaar/db/repository.py:68-73 | a concrete race that stores NONCE_REPLAY for a nonce nobody used, where the gate would allow |
| Races.SecondOfTwoIsBlocked | backend/bazaar/db/schema.sql:138-142 | of two approvals sharing a nonce or a key the second does not persist, whatever it had read |
| RacedLog.RacedLogAcceptedIff | backend/bazaar/ledger/audit_log.py:53-63 | the log of a race passes the verifier if and only if every entry, of an authorization or a settlement, is inserted at the tip its call had read |
| RacedLog.NoAppendBetweenIff | backend/bazaar/ledger/audit_log.py:53-63 | that is, if and only if no entry lands between the reading of a tip and the insert |
| RacedLog.TipWasRead | backend/bazaar/ledger/audit_log.py:53-56 | the tip a flight carries is the one the log showed at its reading action |
| RacedLog.TwoReadersFork | backend/bazaar/ledger/audit_log.py:53-63 | two calls that read one tip and both insert leave a log the verifier rejects |
| RaceExamples.ForkExample | backend/bazaar/razorpay/settlement.py:59-64 | a concrete race of an authorization and the settlement of its row that forks the chain |
| RacedReplay.QuietRaceReplaysIff | backend/bazaar/ledger/audit_log.py:8-11 | when all calls of a race have logged and none was refused, the log rebuilds the tables if and only if the last entry about each transaction tells the latest of its stages |
| RacedReplay.RefusalCollides | backend/bazaar/db/schema.sql:107-107 | in a race with fresh event ids the log refuses an entry only on an explicit collision |
| RacedReplay.RacedLogReplaysIff | backend/bazaar/ledger/audit_log.py:8-11 | with fresh event ids, the same without the assumption on refusals, or an explicit collision |
| RacedReplay.FoldTells | backend/bazaar/ledger/audit_log.py:8-11 | what folding any log makes of one transaction: present exactly with an authorization entry, with its amount and verdict, and the status and order of the last entry about it |
| RaceExamples.OutOfOrderExample | backend/bazaar/verifier/service.py:95-136 | a concrete race whose log passes the verifier and does not replay to the tables |
| Catalog.UpsertWritesOneRow | backend/bazaar/db/repository.py:127-136 | a write keeps key order, shows up under its own sku and changes what no other sku reads |
| Catalog.CatalogStore.UpdatePrice | backend/bazaar/catalog/store.py:46-50 | succeeds exactly for a known sku and a non-negative price, and changes the price read under that sku and nothing else |
| Catalog.UpsellStaysInCategoryAndCap | backend/bazaar/agents/seller.py:22-35 | an upsell is an active item of the base's category whose list price fits the cap, is no lower than the base's and the highest that fits, the first sku on equal prices |
| Catalog.UpsellIsMadeIff | backend/bazaar/agents/seller.py:22-35 | another sku than the base is proposed if and only if another active item of the category fits between base price and cap, and the base is inactive, above the cap, cheaper, or equally priced and later in sku order |
| Catalog.OfferStaysInBand | backend/bazaar/catalog/store.py:63-79 | an offer is made exactly of an active row, changes only its price, and that to the list price, or the one asked for inside the band, and never outside it |
| Catalog.CounterStaysInBand | backend/bazaar/agents/seller.py:37-42 | a counter-offer stays between floor and list, does not undercut an opening up to the list price, and never falls as the opening rises |
| Negotiation.ClosedForm | backend/bazaar/agents/negotiation.py:65-78 | the counter, two floor divisions and three clamps come to min(cap, floor((3 * floor + list) / 4)) |
| Negotiation.Negotiate | backend/bazaar/agents/negotiation.py:39-84 | ends with an offer exactly when sku and a viable price exist; offer, outcome and transcript carry the closed-form price inside the walls |
| Negotiation.AgreedPriceIsBounded | backend/bazaar/agents/negotiation.py:35-36 | the price never falls as the cap rises and concedes at most a quarter of the band |
| Purchase.SignedMandateVerifies | backend/bazaar/agents/issuer.py:21-29 | the issuer signs exactly what the buyer's view calls confirmable, and what it returns is the draft under a valid signature |
| Purchase.BuiltTransaction | backend/bazaar/agents/buyer.py:83-102 | the transaction buys the offer at its price under the mandate, keeps a given nonce and key and draws missing or empty ones |
| Purchase.OfferStaysInsideMandate | backend/bazaar/catalog/store.py:63-79 | a negotiated offer, upsold or not, is active, in the requested category and between floor and the lower of list and cap |
| Purchase.HonestPurchaseIsAllowed | backend/bazaar/agents/buyer.py:83-102 | every honestly built transaction, with a fresh nonce and key and an unfrozen agent, is allowed within the cap |
| Purchase.HonestPurchaseIsStoredIff | backend/bazaar/agents/negotiation.py:53-74 | it ends as one authorized row at the agreed price if and only if three times the floor plus the list price of the negotiated row is not negative, and raises without a row otherwise |
| Purchase.NegativeFloorExample | backend/bazaar/db/schema.sql:59-59 | a concrete honest purchase, allowed at a negative price, whose row is refused |
| Attestation.AttestThenVerify | backend/bazaar/catalog/attestation.py:74-107 | a fresh attestation of a record is accepted exactly by those who trust its key and for 900 seconds, refused otherwise for the key first and the time next, and the signed offer is the record |
| Attestation.RefusalNamesTheFault | backend/bazaar/catalog/attestation.py:88-107 | unsigned, untrusted and tampered are answered exactly for the first of these faults, expired only past the expiry |
| Attestation.AcceptedPriceWasSigned | backend/bazaar/catalog/attestation.py:88-117 | an accepted attestation carries an unexpired price and category a pinned merchant signed |
| Ap2.AcceptedCart | backend/bazaar/adapters/ap2.py:76-152 | a cart is accepted if and only if signer, algorithm, type, the one complete line, line arithmetic, payee and every number are in order, and it carries exactly the signed line's sku, unit amount and quantity, the signed total, payee, payees, subject, budget and expiry, and the stated defaults |
| Ap2.RefusedCart | backend/bazaar/adapters/ap2.py:89-152 | a refusal names the first fault of signer, algorithm, token, type, lines, numbers, total, payee, item and budget |
| Ap2.CheckoutReachesIff | backend/bazaar/api/app.py:140-168 | a checkout reaches the service if and only if its cart is accepted, the signed line's item is on sale and the signed budget positive, and is refused for the first of these otherwise |
| Ap2.CheckoutPresents | backend/bazaar/adapters/ap2.py:155-199 | what reaches the gate is the signed line's item at the signed total for the signed subject, under a mandate of the pinned issuer for that item's category, the signed budget and the token's end |
| Ap2.CartClearsIff | backend/bazaar/adapters/ap2.py:155-199 | a cart that reaches the gate is allowed exactly when its signed total is the price recorded under the signed line's sku, within the signed budget, unexpired, for an unfrozen agent with unused nonce and key |
| Ap2.AllowedCartIsTwoSided | backend/bazaar/api/app.py:140-181 | an allowed cart's signed unit price times quantity is its signed total, is the price the merchant signs for the signed line's sku, and is within the signed budget |
| Ap2.CartSpentAtMostOnce | backend/bazaar/adapters/ap2.py:193-198 | over any run all ALLOW rows with one transaction id are one row and all orders for it one order |
| Ap2.CartBuysOnce | backend/bazaar/adapters/ap2.py:139-139 | of two checkouts of carts with one non-empty transaction id, in any run and with any nonces, the second is not approved once the first is |
| Ap2.SecondPresentationIff | backend/bazaar/adapters/ap2.py:139-139 | presented again with a fresh nonce a cart is allowed if and only if it lacks a transaction id, and otherwise blocked as a duplicate |
| Ap2.CheckoutIsGrounded | backend/bazaar/api/app.py:169-171 | when the service runs, the checkout's agent and exactly its mandate are on file, and nothing is pending |
| RedTeam.EngineeredIsBlocked | backend/bazaar/redteam/attacks.py:6-11 | a case that fails the targeted check and passes all before it is blocked with its class's reason for the whole mandate lifetime |
| RedTeam.MakeAttack | backend/bazaar/redteam/attacks.py:81-132 | for every draw and class the case carries its label and the pinned gate gives exactly that |
| RedTeam.SomeCategoryIsOutside | backend/bazaar/redteam/attacks.py:217-217 | the off-mandate category list drawn from is never empty |
| RedTeam.MakeAttackOod | backend/bazaar/redteam/attacks.py:188-236 | the same for the second generator, with random caps, category lists, deltas and expiry offsets |
| RedTeam.MakeLegit | backend/bazaar/redteam/attacks.py:135-157 | every legitimate draw, boundary amounts included, is allowed |
| RedTeam.MakeLegitOod | backend/bazaar/redteam/attacks.py:239-254 | the same for the second generator |
| RedTeam.GenerateAdversarial | backend/bazaar/redteam/attacks.py:160-169 | a batch holds the classes in order, the given number of each, every label right under the pin |
| RedTeam.GenerateLegitimate | backend/bazaar/redteam/attacks.py:172-175 | a batch of the given size, every case allowed |
| RedTeam.UnpinnedForgeryIsAllowed | backend/bazaar/redteam/attacks.py:92-98 | without the pin the gate allows a forged mandate, so the pin is what makes that label right |

## Left out

- Ed25519, ES256 and JWT decoding, HMAC, SHA-256 and canonical JSON are function values; webhook signature checking happens before `HandleEvent`.
- The risk model: every risk signal is allowed in its place; its score is the number its 64 bits spell.
- The intent compiler, its drafts and its clock: a mandate draft is taken as given.
- HTTP routes, frontend, demos, benchmarks, key storage and the gateway's HTTP client; the client is an oracle with arbitrary answers.
- Instants are integers; their RFC 3339 text form, and with it the rounding to its resolution, is not modelled.
- Columns and fields that no decision reads: display names, roles, titles, descriptions, detail texts, created and executed times, the stored canonical body, the currency of records and carts, receipt signatures.
- Values of the wrong JSON type in webhook events and gateway payments, and cart claims that are not objects, raise in Python and are not modelled.
- Random ids (nonces, receipt, event, transaction and cart ids) are inputs; where freshness matters a lemma requires it.
- Two `settle`, `reconcile` or `handle_event` calls reading a row before either has written it: the API serializes them with a lock.
- A crash between creating an order and storing it, log truncation, cumulative budgets, payee against merchant checks: the program does not provide them.
- `CatalogStore.seed` and `SellerAgent.list_offers`: easy members.
- Exceptions that escape the AP2 route (a cart line without sku, an unreadable budget, an unconfirmable cart) are error values of `VerifyCart` and `ToBazaar`.
- Races.RacesCannotDoubleAuthorize: each in-flight call has its own connection, so a call that dies on an uncaught error takes its pending reservation with it; the shared-connection case is `Nonces.ExactUnlessLeak`. Settling, reconciling and webhook calls change their row in one action, as under the API's lock, and log like the others.
- RedTeam.MakeAttack: a batch shares one clock reading, where the program reads the clock once per mandate.
- RedTeam.GenerateAdversarial: the two generators are one method with a switch, as their loops are the same; likewise `RedTeam.GenerateLegitimate`.
- Gate.Authorize: the first five checks are in `Gate.CheckAuthority`, to keep each proof small.
