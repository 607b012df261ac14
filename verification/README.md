# easypay payment service — a Dafny model

This project models the decision and recording path of the easypay
`PaymentService`: the authorization pipeline `process`, the outcome
recorder `store`, and the transactional entry point `accept` that runs one
after the other.

- **Authorization pipeline** (`authorization.dfy`, module `Authorization`).
  `Process` is a pure function of the processing context, the authorization
  threshold and the collaborators' answers (`Oracles`: POS active, card
  number valid, card type, blacklisted, and the bank's reply with the bank
  fields it leaves in the context). It returns an `Outcome`: the updated
  context, the checks whose collaborator was asked, in order, and the values
  written to the response code. These two lists are how the short-circuit
  order and the "written at most once" rule are stated.
- **Reference pipeline** (`pipeline.dfy`, module `CheckPipeline`). The same
  decision written as data: a list of checks run by `Run`, where the first
  failing check writes its decline code and ends the run. General lemmas hold
  for any list of checks. `ProcessFollowsPipeline` proves that `Process`
  equals `Run` on the five checks in the source's order.
- **Outcome recorder** (`recorder.dfy`, module `OutcomeRecorder`). `Store`
  takes the context, the clock reading `now` and the record store's answer.
  That answer is the fresh identifier it assigned, or `None` when the save
  failed. `Store` returns the updated context and the saved record.
  `Reflects` states when a record is a snapshot of a context.
- **Records** (`records.dfy`, module `PaymentRecords`). A minimal stand-in
  for the repository: saved records in insertion order, `Save` appends,
  `Lookup`/`FindById` find a record by identifier, and "not found" is an
  empty result.
- **Orchestrator** (`service.dfy`, module `PaymentService`). `Accept` counts
  the request, runs `Process`, then `Store`. A failed save rolls the
  transaction back, so no record becomes visible. The request counter is a
  metric outside the transaction, so it still moves.
- `domain.dfy` holds the context, the record and the enumerations.
  `wrappers.dfy` holds `Option`.

The source spells the unknown-card-type code `UNKNWON_CARD_TYPE`; here it
is `UnknownCardType`. The card type is recorded only after the type check,
and only for a type other than `UNKNOWN`, not as soon as the structural
card-number check passes.

## Model

| member | source | states |
|---|---|---|
| Authorization.Process | easypay-service/src/main/java/com/worldline/easypay/payment/control/PaymentService.java:68-103 | the collaborators asked form a non-empty prefix of the order POS, card number, card type, blacklist, bank; the response code is written at most once, exactly when some check fails, and then holds the written value, else keeps its value (unset means approved); posId, card number, expiry, amount, mode, date, timing marker and id are unchanged |
| Authorization.ProcessConsultsInOrder | easypay-service/src/main/java/com/worldline/easypay/payment/control/PaymentService.java:71-94 | each later collaborator is asked exactly when every earlier check passed: card number iff POS active, type iff also number valid, blacklist iff also type known, bank iff also not blacklisted and amount strictly above the threshold |
| Authorization.ProcessRecordsCardType | easypay-service/src/main/java/com/worldline/easypay/payment/control/PaymentService.java:81-88 | the card type is set to the classified value exactly when the POS, card-number and type checks passed, which is exactly when the blacklist question is reached; otherwise it is left as it was |
| Authorization.ProcessBankFieldsOnlyFromBank | easypay-service/src/main/java/com/worldline/easypay/payment/control/PaymentService.java:93-97 | the bank is asked iff every card check passed and the amount is strictly above the threshold; bankCalled, authorized and authorId are the bank's values then and unchanged otherwise |
| Authorization.InactivePosDeclines | easypay-service/src/main/java/com/worldline/easypay/payment/control/PaymentService.java:71-74 | inactive POS gives INACTIVE_POS after asking only the POS validator; card type, bankCalled, authorized and authorId untouched |
| Authorization.InvalidCardNumberDeclines | easypay-service/src/main/java/com/worldline/easypay/payment/control/PaymentService.java:76-79 | a failed structural check gives INVALID_CARD_NUMBER; no type, blacklist or bank question; card type untouched |
| Authorization.UnknownCardTypeDeclines | easypay-service/src/main/java/com/worldline/easypay/payment/control/PaymentService.java:81-85 | an UNKNOWN type gives the unknown-card-type code and the card type is not assigned |
| Authorization.BlackListedCardDeclines | easypay-service/src/main/java/com/worldline/easypay/payment/control/PaymentService.java:86-91 | a blacklisted card gives BLACK_LISTED_CARD_NUMBER, keeps its recorded type, and the bank is never asked |
| Authorization.AmountWithinThresholdSkipsBank | easypay-service/src/main/java/com/worldline/easypay/payment/control/PaymentService.java:93 | with every card check passed and amount <= threshold (equality included), the bank is not asked, the bank fields are untouched and the code stays as it was |
| Authorization.BankDecides | easypay-service/src/main/java/com/worldline/easypay/payment/control/PaymentService.java:93-97 | above the threshold, a bank refusal gives AUTHORIZATION_DENIED in STANDARD mode and AMOUNT_EXCEEDED otherwise; an approval leaves the code; the bank fields are those the authorizer set |
| Authorization.BankDeclineCode | easypay-service/src/main/java/com/worldline/easypay/payment/control/PaymentService.java:96 | the refusal code is AUTHORIZATION_DENIED iff the mode is STANDARD, else AMOUNT_EXCEEDED |
| CheckPipeline.Apply | easypay-service/src/main/java/com/worldline/easypay/payment/control/PaymentService.java:71-97 | a single check asks at most its own collaborator and writes at most one code; when it writes one it has asked its collaborator and the context holds the code; a passing check keeps the code |
| CheckPipeline.RunWritesCodeAtMostOnce | easypay-service/src/main/java/com/worldline/easypay/payment/control/PaymentService.java:70-98 | for any list of checks, the code is written at most once, the context holds the written value (or the original one when nothing failed), and no more collaborators are asked than there are checks |
| CheckPipeline.RunAsksOnlyListedChecks | easypay-service/src/main/java/com/worldline/easypay/payment/control/PaymentService.java:70-98 | running a list of checks (`Run`, the table-driven reading of the pipeline) asks only collaborators the list names, each no more often than the list names it |
| CheckPipeline.RunStopsAtFirstFailure | easypay-service/src/main/java/com/worldline/easypay/payment/control/PaymentService.java:71-91 | once a prefix of the checks fails, any checks after it are never run |
| CheckPipeline.ProcessFollowsPipeline | easypay-service/src/main/java/com/worldline/easypay/payment/control/PaymentService.java:68-103 | the nested-if pipeline equals `Run` over the check list POS, card number, card type, blacklist, bank, in that order |
| PaymentDomain.SubLong | easypay-service/src/main/java/com/worldline/easypay/payment/control/PaymentService.java:118 | Java long subtraction: exact when the difference fits in a long, and otherwise congruent to it modulo 2^64 |
| OutcomeRecorder.Store | easypay-service/src/main/java/com/worldline/easypay/payment/control/PaymentService.java:105-133 | responseTime becomes now minus the start marker (long arithmetic) in both the record and the context; nothing else in the context changes except the id; on a successful save the context id is the assigned id and the record reflects the final context field by field (authorId copied when present); on a failed save no record and the id is unchanged |
| PaymentRecords.Lookup | easypay-service/src/main/java/com/worldline/easypay/payment/control/PaymentService.java:143-145 | lookup finds a saved record carrying the id, and finds nothing exactly when no saved record has that id |
| PaymentRecords.FindById | easypay-service/src/main/java/com/worldline/easypay/payment/control/PaymentService.java:143-145 | the scan returns a saved record with the requested id, or nothing when no record has it, agreeing with the reference lookup |
| PaymentRecords.Save | easypay-service/src/main/java/com/worldline/easypay/payment/control/PaymentService.java:126 | `saveAndFlush` adds exactly one record at the end and keeps every earlier record in place |
| PaymentRecords.LookupAfterSave | easypay-service/src/main/java/com/worldline/easypay/payment/control/PaymentService.java:126-128 | after saving under a fresh id, that id finds the new record and every other id finds what it found before |
| PaymentRecords.SaveKeepsIdsUnique | easypay-service/src/main/java/com/worldline/easypay/payment/control/PaymentService.java:126 | saving under a fresh id keeps identifiers unique and adds exactly that id |
| PaymentService.Accept | easypay-service/src/main/java/com/worldline/easypay/payment/control/PaymentService.java:135-141 | one request is counted in every case; the transaction commits iff the save succeeded and then adds exactly one record, a snapshot of the final context under the assigned id; otherwise the records are unchanged; the final context is the pipeline's context with responseTime set to now minus the start marker (long arithmetic) and the id the store gave back, so the persisted code, card type and bank fields are the pipeline's |
| PaymentService.AcceptThenFindById | easypay-service/src/main/java/com/worldline/easypay/payment/control/PaymentService.java:126-141 | after a committed accept, findById with the context's new id returns a record equal field by field to the final context, the count grew by one, other ids are unaffected |
| PaymentService.FailedSaveLeavesNoRecord | easypay-service/src/main/java/com/worldline/easypay/payment/control/PaymentService.java:135-141 | a failed save leaves lookups, the count and the context's id as they were |
| PaymentService.AcceptKeepsIdsUnique | easypay-service/src/main/java/com/worldline/easypay/payment/control/PaymentService.java:126-128 | successive accepts keep record identifiers unique |
| PaymentService.InactivePosIsRecorded | easypay-service/src/main/java/com/worldline/easypay/payment/control/PaymentService.java:71-74 | a fresh context on an inactive POS is still persisted, with INACTIVE_POS, no card type and no bank call |
| PaymentService.SmallAmountIsApprovedWithoutBank | easypay-service/src/main/java/com/worldline/easypay/payment/control/PaymentService.java:93 | a valid card at or below the threshold is persisted approved (no code), with its card type, no bank call and not authorized |
| PaymentService.BankRefusalIsRecorded | easypay-service/src/main/java/com/worldline/easypay/payment/control/PaymentService.java:93-97 | a bank refusal above the threshold is persisted with the mode's decline code and the bank's fields |

## Left out

- Metrics: the two latency histograms and the request counter's telemetry handle (lines 35-37, 49-65, 99-100, 130-131) are observation only. The counter is kept as a plain number in `Service`.
- Wall-clock time (lines 69, 106, 118): `now` is a parameter. The latency measured around `process` and `store` is not modelled.
- `PaymentTracker.track` (line 140) and the refusal log line (line 95): observation hooks with no effect on the decision or the record.
- The bank authorizer reads the context it is handed. Here its reply is an input, so the fact that the card type is recorded before the bank call is not observable. The model still hands the bank step the context with the card type set.
- Collaborator internals: the POS validator, card validator and bank authorizer are represented only by their answers (`Oracles`). The bank's effect on the context is its reply's three fields.
- Exceptions from the validators or the bank authorizer (lines 71-94) are not modelled: they would propagate out of the transaction and, like a failed save, leave no record. The save failure is modelled as the store's answer `None`.
- `@Transactional` (line 135) is modelled only as its observable effect: a failed save leaves the records unchanged.
- Tracker failure inside the transaction is not modelled. It would roll back an otherwise successful save.
- `findAll` and `count` (lines 147-153) are the record sequence and its length. They need no members of their own.
- The fresh-id precondition of the lookup and uniqueness lemmas (AcceptThenFindById, AcceptKeepsIdsUnique, LookupAfterSave, SaveKeepsIdsUnique) stands for the record store's guarantee that generated identifiers (UUIDs in the source) never collide. Identifiers are modelled as natural numbers.
- Amounts and the threshold are unbounded integers. The pipeline only compares them, so Java `Integer` width does not matter. Null fields (which would throw in the source) are not modelled.
- The card types and processing modes other than `UNKNOWN` and `STANDARD` are not part of this model. They appear as `Known(brand)` and `OtherMode(name)`.
