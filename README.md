# AlgoService: asset issuance and metadata lookup on an Algorand node

This project models the core of a small HTTP service. The service creates Algorand Standard
Assets (ASA) whose application metadata travels in the note field of the creation
transaction. It also reads that metadata back through the indexer. The model covers the three
operations of `AlgoService`:

- **waitForConfirmation**: a polling loop bounded by rounds. It reads the node's last round.
  Then it queries the pending status of the transaction at most `timeout` times. After each
  query that shows no confirmed round, it waits for the next block.
- **createAsset**: fetch the suggested parameters and build the asset-create transaction.
  The service address is the sender and holds all four control roles (manager, reserve,
  freeze, clawback). The transaction copies the model's fields, and its note is the
  encoded metadata. Then set the fee, sign, submit, and wait for confirmation with a budget
  of 6 rounds. Only after that is the transaction id stamped on the model.
- **getAssetParams**: search the indexer for asset-configuration transactions sent by the
  service address. Take the one with the smallest confirmed round and decode its note.
  Every failure becomes "no metadata".

How the model is built:

- The node (algod) and the indexer are oracles. Each reply is an arbitrary function of the
  history of exchanges made so far, so scripted, adversarial and history-dependent nodes
  are all covered.
- Every request appends one `Exchange` (the request and the reply it got) to the history.
  The operations take that history and return the extended one. The properties are then
  stated about the trace: which requests were made, in what order, and how many.
- `Reply` has three cases: `execute()` threw, the response was unsuccessful, or it was
  successful with a body.
- MessagePack encoding and decoding, signing and the fee-per-byte computation are function
  parameters. Nothing is assumed about them. Decoding gives `None` where the decoder throws an
  `IOException`, the only exception `getAssetParams` catches around it (line 192).
- Each operation has a specification function (`Confirmation.ConfirmationRun`,
  `Issuance.CreateRun`, `AssetQuery.MetadataOf`). The methods of `Service.AlgoService`
  are proved equal to these functions. The lemmas state the properties of the
  specification functions.

Where the intended design of the service and its code disagree, the model follows the code:

- The intended design rejects an encoded metadata note larger than a transaction note may be
  (a `PayloadTooLarge` error) before any network call. The code has no such check, so the
  model has none.
- The intended design returns "not found" only when no transaction has a note.
  The code only looks at the note of the earliest transaction. If that note is null, the
  result is empty even when later transactions carry notes. The comment at line 185 ("the
  last note field not null") matches neither behaviour.
- The intended design treats a failed pending-status query as a query failure. The code reports
  it as "the transaction has been rejected" (`Fault.TransactionRejected`).
- The intended design has confirmation return the confirmed round. In the code,
  `waitForConfirmation` returns nothing (`Outcome.Pass`).
- The intended design has the transaction id absent before submission and immutable
  after. The code never checks this: `setTxId` overwrites whatever was there.

## Model

| member | source | states |
|---|---|---|
| `Confirmation.PollRun` | src/main/java/it/davidlab/algonfa/service/AlgoService.java:85-101 | the polling loop only appends to the history: the history before it is a prefix of the history after it |
| `Confirmation.ConfirmationRun` | src/main/java/it/davidlab/algonfa/service/AlgoService.java:70-104 | waitForConfirmation always makes at least one request (the status read), and it only appends to the history |
| `Confirmation.PollRunTalksToNode` | src/main/java/it/davidlab/algonfa/service/AlgoService.java:85-101 | each exchange of the loop went to the node and carries the node's reply to the history before it |
| `Confirmation.PollRunShape` | src/main/java/it/davidlab/algonfa/service/AlgoService.java:85-94 | the loop alternates pending queries for the given id with waits; the k-th wait is for round `round + k`; at most two exchanges per round of the budget |
| `Confirmation.PollRunStopsOnce` | src/main/java/it/davidlab/algonfa/service/AlgoService.java:88-100 | every exchange before the last one let the loop go on: no terminal reply is ever followed by another request |
| `Confirmation.PollRunOutcome` | src/main/java/it/davidlab/algonfa/service/AlgoService.java:85-103 | the last exchange decides the outcome of the loop; a timeout comes only after exactly two exchanges per round of the budget |
| `Confirmation.ConfirmationTalksToNode` | src/main/java/it/davidlab/algonfa/service/AlgoService.java:73-81 | the first request is the status read; if it fails, nothing else is requested; every reply is the node's |
| `Confirmation.ConfirmationShape` | src/main/java/it/davidlab/algonfa/service/AlgoService.java:77-91 | after a successful status read, polling starts at last round + 1 and waits for consecutive rounds, with at most 1 + 2·max(timeout, 0) exchanges |
| `Confirmation.ConfirmationEnding` | src/main/java/it/davidlab/algonfa/service/AlgoService.java:73-103 | no exchange but the last stops the run; the last exchange decides the outcome; a timeout uses the whole budget |
| `Confirmation.BoundedPolling` | src/main/java/it/davidlab/algonfa/service/AlgoService.java:77-91 | at most max(timeout, 0) pending-status queries, all for the given id; every waited round r satisfies last+1 <= r < last+1+timeout; with a failed status read or timeout <= 0, no query at all |
| `Confirmation.SingleSuccessExit` | src/main/java/it/davidlab/algonfa/service/AlgoService.java:88-97 | it returns normally if and only if some query reports a confirmed round for the id, and that query is the last request made |
| `Confirmation.TerminalFailures` | src/main/java/it/davidlab/algonfa/service/AlgoService.java:73-100 | an unsuccessful status read fails with no query; an unsuccessful query ends the run as rejected; an unsuccessful wait ends it; a thrown call ends it; each is the last exchange, so nothing is retried |
| `Confirmation.Timeout` | src/main/java/it/davidlab/algonfa/service/AlgoService.java:83-103 | it fails with NotConfirmed(timeout) if and only if every reply let it go on, and then it made exactly max(timeout, 0) queries |
| `Confirmation.ConfirmedOnFirstQuery` | src/main/java/it/davidlab/algonfa/service/AlgoService.java:86-97 | a node that confirms on the first query: success after the status read and that one query, with no wait |
| `Confirmation.NeverConfirmedTimesOut` | src/main/java/it/davidlab/algonfa/service/AlgoService.java:83-103 | a node that never confirms and whose waits succeed: a timeout after exactly max(timeout, 0) queries |
| `Issuance.AssetCreateTransaction` | src/main/java/it/davidlab/algonfa/service/AlgoService.java:123-138 | the built transaction has sender = manager = reserve = freeze = clawback = the service address, copies total, decimals, unit name, asset name, url and default-frozen from the model, carries the given note and the suggested parameters |
| `Issuance.IssuedTransaction` | src/main/java/it/davidlab/algonfa/service/AlgoService.java:121-142 | the transaction that gets signed keeps the single-issuer roles and the model's fields after the fee is set, and its note is the encoding of the model's metadata |
| `Issuance.CreateRun` | src/main/java/it/davidlab/algonfa/service/AlgoService.java:108-164 | createAsset always makes at least one request and only appends to the history |
| `Issuance.ParametersBeforeSubmission` | src/main/java/it/davidlab/algonfa/service/AlgoService.java:110-148 | the first request fetches the parameters; if that fails, the call fails with nothing submitted; the only submission is the second request and carries `SubmittedBytes`, the encoding of the signed (lines 144-145) single-issuer transaction built from the model |
| `Issuance.SubmitsThenConfirms` | src/main/java/it/davidlab/algonfa/service/AlgoService.java:142-163 | once the parameters arrive, the second request is the submission of the signed transaction built from the model; once the node accepts it, the rest of the history is that of waitForConfirmation for the returned id with a budget of exactly 6 rounds, and createAsset succeeds with that id if and only if the confirmation passes, failing with its fault otherwise |
| `Issuance.AcceptedNeverConfirmed` | src/main/java/it/davidlab/algonfa/service/AlgoService.java:148-158 | a node that accepts the submission and never confirms it: createAsset fails with NotConfirmed(6) after exactly 6 pending-status queries |
| `Issuance.ConfirmationAfterAcceptance` | src/main/java/it/davidlab/algonfa/service/AlgoService.java:147-163 | status reads, queries and waits happen only after the node accepted the submission, and the queries are for the id it returned; a submission the node does not accept ends the call with no confirmation request |
| `Issuance.StampOnlyAfterConfirmation` | src/main/java/it/davidlab/algonfa/service/AlgoService.java:150-158 | createAsset succeeds if and only if the submission was accepted and its last request is a query that reports that id confirmed; the id it reports is the node's; at most 6 queries |
| `AssetQuery.EarliestIndex` | src/main/java/it/davidlab/algonfa/service/AlgoService.java:186-187 | the picked transaction has the smallest confirmed round, and every transaction before it has a larger one (the minimum keeps the first of equal rounds); it is the only such index |
| `AssetQuery.SelectedNote` | src/main/java/it/davidlab/algonfa/service/AlgoService.java:186-187 | the note of the transaction the minimum picks (the first of those with the smallest confirmed round), and none (null) when the list is empty |
| `AssetQuery.MetadataOf` | src/main/java/it/davidlab/algonfa/service/AlgoService.java:173-197 | no metadata when the search threw, was unsuccessful or found nothing; otherwise the decoded note of the earliest transaction, and none when that note is null or does not decode, whatever the other transactions carry |
| `Service.AlgoService.WaitForConfirmation` | src/main/java/it/davidlab/algonfa/service/AlgoService.java:70-104 | the loop's outcome and history are those of `ConfirmationRun` |
| `Service.AlgoService.CreateAsset` | src/main/java/it/davidlab/algonfa/service/AlgoService.java:108-164 | history as `CreateRun`; on success the same model is returned with its id set to the confirmed transaction's id; on any failure the model's id is left as it was; no other field changes |
| `Service.AlgoService.GetAssetParams` | src/main/java/it/davidlab/algonfa/service/AlgoService.java:167-198 | one search, by the service address and the asset id, is appended to the history; the result is `MetadataOf` of its reply |

## Left out

- The HTTP controller (`MainController.java`) only maps routes and turns exceptions into status 500, so it is not modelled.
- The Spring configuration fields and the `@PostConstruct` construction of the account and the clients (lines 36-65) are not modelled. The constructor of `AlgoService` takes the collaborators as given.
- The Algorand SDK is not modelled: the clients, `Encoder`, `Account.signTransaction` and `Account.setFeeByFeePerByte`. These are parameters of the model with no assumed properties. No codec round trip is claimed.
- `Service.AlgoService.CreateAsset` does not model exceptions thrown while encoding the metadata, building the transaction (the builder's `build()`, lines 123-138, for instance on out-of-range `total` or `decimals`, which are unbounded integers here), computing the fee, signing or encoding the signed transaction. Those functions are total in the model.
- The fee arithmetic is not modelled. The fee is whatever the fee function returns.
- `Confirmation.ConfirmationRun` does not model 64-bit overflow of `lastRound + 1 + timeout`. Rounds and the `int` timeout are unbounded integers, and overflow would need a last round near 2^63.
- A null `confirmedRound` in an indexer transaction is not modelled (it would throw in the comparator). Nor are a null response body or a null `lastRound`.
- The blocking of `WaitForBlock`, wall-clock time and concurrent requests are not modelled. A wait is a request that succeeds or fails.
- Logging and exception message texts are not modelled. Failures are the constructors of `Faults.Fault`, and the timeout carries its budget.
- The `Metadata` domain class is not part of this model. Metadata is an opaque map of properties.
- The search's fixed address role (sender) and transaction type (asset configuration) are implied by the `Search` exchange rather than stored in it.
- `AssetQuery.MetadataOf` does not model exceptions other than `IOException` thrown by the note decoder (line 192): those escape `getAssetParams` in the source, while the decoder parameter here only returns a value or `None`.
