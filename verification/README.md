# Waya batch payouts, modelled in Dafny

Waya is a Go service that pays a list of recipients at once through the Afriex
payment gateway. A client posts a batch of payout items. The service stores every
payout in SQLite as PENDING. It then runs one worker per payout. Each worker marks
its payout PROCESSING and makes three gateway calls: it creates a customer, links
the bank account as a payment method, and sends the transaction. It then records
SUCCESS, or FAILED with a message naming the step that failed. A status query
later lists the batch's payouts with their count and total.

This project models that core as immutable data and pure functions:

- `Domain` holds the payout and batch records and the four statuses.
- `Workflow` is the per-payout state machine (`processSinglePayout`, `handleError`).
  The gateway is a `Rail`: three functions from request to `Ok(id)` or `Err(text)`.
  `Drive` produces the trace of calls and a verdict. `Settlement` turns the verdict into
  the terminal status write.
- `Engine` is `ExecuteBatch`. The save loop (`Persist`) stops at the first failed save.
  The fan-out (`FanOut`) runs the workers one after another in an arbitrary schedule
  `order`. The schedule stands in for the goroutines, which write disjoint rows.
  The database's answers to writes come from a `Repo` of failure functions, so
  rejected saves and rejected status writes are both covered.
- `SqlStore` is the SQLite repository. Its table maps payout ids to rows with
  nullable columns: an empty string is stored as NULL, and NULL reads back as "".
  The module also holds the row-to-payout mappings and the single-row and list queries.
- `Queries` is the service's batch filter and the summary that `GetBatchStatus`
  builds. The summary total is an int64 with wrap-around (`Int64`).
- `Handlers` holds the bulk submission mapping and the batch-status replies.
  `ApiKey` is the `x-api-key` guard.
- `Decimal` renders integer cents as the amount string sent to the gateway, with
  exactly two cent digits.
- `Scenario` is a worked batch of three payouts. The gateway refuses the second
  recipient's customer; the proof shows where each payout ends.

Two behaviours are modelled as the code has them:

- The save loop stamps the batch id, PENDING and the clock onto a copy of each
  payout, and the workers receive the original payouts. So the transaction
  narration uses the batch id the payout already carried. For submissions coming
  through `HandleBulkPayout` the two coincide (`Handlers.SubmittedGatewayRequests`).
- `SavePayout` does not persist the creation time or the error message. List
  reads do not map back the wallet tag, the error message or the timestamps, and
  `GetPayout` also drops the bank name.

## Model

| member | source | states |
|---|---|---|
| Domain.StatusesDistinct | internal/core/domain/payout.go:10-13 | The four statuses are pairwise distinct; PENDING and PROCESSING are not terminal |
| Int64.Wrap | internal/adapters/handlers/http/payout.go:113-116 | The int64 result of an exact integer: in range, unchanged when already in range, congruent modulo 2^64 |
| Int64.WrapAdd | internal/adapters/handlers/http/payout.go:113-116 | Adding to a wrapped accumulator wraps like adding to the exact sum |
| Decimal.CentsToDecimal | internal/core/services/payout.go:111-112 | The amount string is whole units, '.', and exactly two digits equal to the cents; a leading '-' exactly for negative amounts |
| Decimal.UnsignedDecimal | internal/core/services/payout.go:112 | The unsigned amount string is whole units without a leading zero, '.', and two digits; the digits read back as the units and the cents |
| Decimal.NatToStringRoundTrip | internal/core/services/payout.go:112 | The whole-units digits read back as the number rendered |
| Decimal.CentsRoundTrip | internal/core/services/payout.go:112 | Reading the amount string back gives the original cents, for every integer |
| Decimal.CentsToDecimalInjective | internal/core/services/payout.go:112 | Different amounts never produce the same amount string |
| Decimal.CentsExampleFraction | internal/core/services/payout.go:111-112 | 10050 cents is sent as "100.50" |
| Decimal.CentsExampleWhole | internal/core/services/payout.go:112 | 500000 cents is sent as "5000.00" |
| SqlStore.Nullable | internal/adapters/storage/db/payouts.go:29-34 | A column is NULL exactly when the string is empty, and otherwise holds the string |
| SqlStore.NullableRoundTrip | internal/adapters/storage/db/payouts.go:29-34 | Storing and reading back a nullable column returns every string, empty or not |
| SqlStore.EncodeRow | internal/adapters/storage/db/payouts.go:27-53 | Email, tag, bank code, account number, bank name and batch id are NULL exactly when empty; the error message column is NULL on insert |
| SqlStore.EncodeRowColumns | internal/adapters/storage/db/payouts.go:27-53 | The required columns are copied, and each optional column holds the payout's text whenever it is not NULL |
| SqlStore.DecodeListRow | internal/adapters/storage/db/payouts.go:100-117 | A listed payout never has a tag, an error message or timestamps; the other fields come from the row, NULL as "" |
| SqlStore.DecodeGetRow | internal/adapters/storage/db/payouts.go:65-80 | The single-row mapping is the list mapping with the bank name dropped |
| SqlStore.ListReadBack | internal/adapters/storage/db/payouts.go:100-117 | A saved payout lists back with every field except tag, error message and timestamps |
| SqlStore.GetReadBack | internal/adapters/storage/db/payouts.go:65-80 | A saved payout read by id also loses its bank name |
| SqlStore.ListReadBackExact | internal/adapters/storage/db/payouts.go:100-117 | A payout lists back unchanged if and only if its tag, error message and timestamps were already empty |
| SqlStore.SavePayout | internal/adapters/storage/db/payouts.go:27-53 | A failed insert leaves the table unchanged and reports the error; otherwise it adds exactly the encoded row |
| SqlStore.UpdatePayoutStatus | internal/adapters/storage/db/payouts.go:83-92 | Only the row with that id changes, and only its status and message; the message is NULL iff empty; a missing id is a no-op without error |
| SqlStore.LookupRow | internal/adapters/storage/db/payouts.go:56-57 | The single-row query over the table finds the row iff the id is in the table, and otherwise fails with no-rows |
| SqlStore.GetAfterSave | internal/adapters/storage/db/payouts.go:56-81 | Reading a payout by id right after a successful save returns it without tag, bank name, error message and timestamps |
| SqlStore.GetMissing | internal/adapters/storage/db/payouts.go:58-61 | Reading an id with no row returns no payout and no error |
| SqlStore.GetAfterUpdate | internal/adapters/storage/db/payouts.go:83-92 | Reading by id after a status write sees the new status with every other mapped field unchanged; a missing id still reads as nothing |
| SqlStore.GetPayout | internal/adapters/storage/db/payouts.go:56-81 | No row gives a successful empty answer, and only then; every other error is passed on; a row is mapped without its bank name |
| SqlStore.DecodeRows | internal/adapters/storage/db/payouts.go:131-148 | One payout per row, in row order |
| SqlStore.ListPayouts | internal/adapters/storage/db/payouts.go:94-120 | Errors pass through, and only query errors are errors; otherwise one payout per row in row order, so no rows is an empty answer, not "not found" |
| SqlStore.ListPayoutsIgnoresLimit | internal/adapters/storage/db/payouts.go:94-95 | The listing is the same whatever limit is passed |
| SqlStore.ListPayoutsByBatchID | internal/adapters/storage/db/payouts.go:123-154 | Query errors pass through; "not found" iff the query returned no rows; otherwise one payout per row |
| Workflow.Drive | internal/core/services/payout.go:78-128 | Calls are customer, payment method, transaction, in that order, one each; the trace stops at the first error; the verdict is paid iff all three answered Ok; each request carries the earlier steps' ids, "BANK_ACCOUNT", "USD", the amount string and the narration |
| Workflow.Settlement | internal/core/services/payout.go:125-138 | The terminal write is SUCCESS with an empty message iff the payout was paid; otherwise FAILED with "<label>: <error>" |
| Workflow.SettledRow | internal/core/services/payout.go:78-138 | After its worker, a row has the settled status and message when that write was accepted; otherwise its old status or PROCESSING; no other column changes |
| Workflow.ProcessSinglePayout | internal/core/services/payout.go:78-133 | The worker changes only its own row. Its effects are a PROCESSING write, then exactly the gateway calls of the trace, then one terminal write for its own id |
| Workflow.WorkerWritesOneTerminal | internal/core/services/payout.go:78-138 | A worker makes exactly one terminal write for its own payout and none for any other |
| Workflow.CustomerRequestIgnoresRecipientEmail | internal/core/services/payout.go:83-88 | The customer request does not depend on the recipient's email |
| Workflow.FailureStopsAtStep | internal/core/services/payout.go:89-128 | A failure at step k leaves exactly k calls in the trace and writes FAILED with that step's label |
| Engine.Persist | internal/core/services/payout.go:41-49 | Saves run in payout order and stop at the first rejected one. The error names that payout and the database's cause. There is no error iff every save was accepted |
| Engine.PersistKeys | internal/core/services/payout.go:41-49 | The save loop adds exactly the rows of the payouts it saved and leaves every other row as it was |
| Engine.PersistStamps | internal/core/services/payout.go:41-45 | Every saved row carries the batch argument as its batch id and PENDING, whatever the payout held |
| Engine.ExecuteBatch | internal/core/services/payout.go:37-76 | No error iff every save was accepted. On error every effect is a save, so no gateway call or status write happened. On success every payout has a row |
| Engine.ExecuteBatchAborts | internal/core/services/payout.go:41-48 | On a failed save, the error names the first rejected payout; the earlier payouts remain as PENDING rows; the attempted saves are exactly payouts 0 to that one, in order, as stamped; nothing after it was attempted |
| Engine.ExecuteBatchSavesFirst | internal/core/services/payout.go:41-68 | When all saves succeed, they come first, in payout order, and no later effect is a save |
| Engine.NoSavesInFanOut | internal/core/services/payout.go:56-68 | Workers never save |
| Engine.FanOut | internal/core/services/payout.go:56-72 | The fan-out adds and removes no rows |
| Engine.FanOutRow | internal/core/services/payout.go:56-68 | A row ends as its payout's settled row iff that payout was scheduled, and is untouched otherwise |
| Engine.FanOutOrderIndependent | internal/core/services/payout.go:53-72 | With distinct ids, any two schedules give the same final table |
| Engine.ExecuteBatchOrderIndependent | internal/core/services/payout.go:37-76 | With distinct ids, the batch's error and final table do not depend on the schedule |
| Engine.FanOutTerminalWrites | internal/core/services/payout.go:56-72 | Each scheduled payout gets exactly one terminal write, and an unscheduled one none |
| Engine.ExecuteBatchProcessesEachOnce | internal/core/services/payout.go:53-75 | When the batch returns no error, every payout has had exactly one terminal write |
| Engine.ExecuteBatchSettles | internal/core/services/payout.go:41-75 | After a successful batch every row has the batch id. Its status is the terminal one when that write was accepted, and otherwise PENDING or PROCESSING |
| Queries.InBatch | internal/core/services/payout.go:155-160 | Keeps exactly the payouts of the batch, and no others |
| Queries.InBatchAppend | internal/core/services/payout.go:155-160 | Filtering distributes over concatenation, so relative order is kept |
| Queries.InBatchCounts | internal/core/services/payout.go:155-160 | Each member is kept as many times as it occurs, and a non-member never |
| Queries.InBatchKeepsMembers | internal/core/services/payout.go:155-160 | A listing of the batch's own payouts comes back whole |
| Queries.ListPayoutsByBatchID | internal/core/services/payout.go:141-167 | Repository errors pass through unchanged; "not found" iff no payout matches; otherwise the matching payouts in order |
| Queries.SumAppend | internal/adapters/handlers/http/payout.go:113-116 | The total of two lists is the sum of their totals |
| Queries.RunningTotal | internal/adapters/handlers/http/payout.go:113-116 | The int64 running total equals the exact sum wrapped once, and the exact sum when that is in range |
| Queries.Summarize | internal/adapters/handlers/http/payout.go:113-124 | The batch has the requested id, the members unchanged, their count, their int64 total, and status "COMPLETED" |
| Queries.SummaryIgnoresStatuses | internal/adapters/handlers/http/payout.go:113-124 | Count, total and status depend only on the members' amounts, never on their statuses |
| Queries.SameAmountsSameSum | internal/adapters/handlers/http/payout.go:113-116 | Lists with the same amounts position by position have the same total |
| Handlers.HandleBulkPayout | internal/adapters/handlers/http/payout.go:34-81 | A bind failure is a 400 "Invalid JSON" with nothing dispatched. Otherwise it answers 202 PROCESSING with the batch id. It builds one payout per item, in order, all in that batch, copying the item's fields and leaving tag, bank name, status and message empty; each reference is the batch reference, '-', and 8 uuid characters |
| Handlers.SubmittedIdsDistinct | internal/adapters/handlers/http/payout.go:44-48 | Distinct uuids give the dispatched payouts distinct ids |
| Handlers.SubmittedGatewayRequests | internal/adapters/handlers/http/payout.go:46-64 | Every submitted payout reaches the gateway with the customer email "temp_@waya.com" and its batch's narration |
| Handlers.SubmittedPayoutReadsBack | internal/adapters/handlers/http/payout.go:46-64 | A submitted payout, once saved, lists back exactly as saved apart from its creation time |
| Handlers.GetBatchStatus | internal/adapters/handlers/http/payout.go:92-127 | 404 iff the error text is "not found"; 500 iff any other error; otherwise 200 with the batch summary |
| Handlers.BatchStatusCodes | internal/adapters/handlers/http/payout.go:103-110 | Over the raw query, 404 iff no row belongs to the batch or the query's own error text is "not found"; 500 iff the query failed otherwise; a 200 reports the batch's rows and a positive count |
| Handlers.EmptyBatchIsNotFound | internal/adapters/handlers/http/payout.go:105-107 | A batch query with no rows answers 404 "Batch ID not found" |
| ApiKey.APIKeyAuth | internal/adapters/handlers/http/middlewares/apikey.go:10-19 | The wrapped handler runs, and its reply is returned, iff the header is non-empty and equals the expected key. Otherwise the reply is 401 |
| ApiKey.UnsetKeyRejectsAll | internal/adapters/handlers/http/middlewares/apikey.go:13-16 | With the key unset, every request is rejected, even one with an empty header |
| Scenario.ThreePayoutScenario | internal/core/services/payout.go:37-138 | Three payouts; the gateway refuses the second customer. The batch returns no error, on every schedule. The first and third end SUCCESS; the second ends FAILED with "Failed to create customer: duplicate email" |

## Left out

- Concurrency: the goroutines, the WaitGroup and the semaphore of at most 10
  workers (internal/core/services/payout.go:53-72). Workers run one after another
  in an arbitrary schedule. Each worker writes only its own row. The model
  also assumes two things the source does not guarantee: the gateway is a pure
  function of the request, and the database's answers to writes are fixed
  functions of the write. In the source, workers write at the same time
  through a pool of SQLite connections with a busy timeout
  (internal/adapters/storage/db/sqlite.go). Whether a status write fails can
  then depend on the other workers, and the worker discards that error.
  Effects are logged as a serial sequence rather than interleaved.
- Engine.FanOutOrderIndependent: the result holds for a stateless gateway,
  whose answer depends only on the request. A real gateway keeps state: it may
  refuse a second customer with the same email, and every submission uses
  "temp_@waya.com". Such a gateway would fail whichever worker ran second, so
  the outcome would depend on the schedule. The model does not cover a
  gateway that remembers earlier calls. The result also assumes that the
  database's answer to each status write (`Repo.updateFailure`) does not depend
  on the schedule. With concurrent writers, a busy timeout can reject one
  worker's write and not another's, depending on the interleaving. The row then
  stays PROCESSING or PENDING. Engine.ExecuteBatchOrderIndependent rests on
  both assumptions.
- The background goroutine in `HandleBulkPayout`
  (internal/adapters/handlers/http/payout.go:70-74). The handler returns what it
  would dispatch to `ExecuteBatch`.
- Handlers.HandleBulkPayout: item amounts arrive already in minor units. The
  float conversion `int64(item.Amount * 100)` is not modelled, because it is
  floating-point arithmetic.
- Decimal.CentsToDecimal: the source renders the amount via a float64 division
  and `%.2f`. The quotient is usually inexact (0.01 has no exact double), but
  `%.2f` rounds it back to the integer rendering while the division's error
  stays under half a cent. That holds for magnitudes below 2^46·100 (about
  7.04·10^15 minor units). At 2^46·100 + 1 the double's spacing exceeds a cent
  and the two renderings differ. Larger amounts are not modelled.
- Engine.ExecuteBatchSettles: a row is guaranteed terminal only when the
  database accepts the worker's terminal write. The source ignores the errors of
  status writes, so a rejected write leaves PENDING or PROCESSING.
- Engine.ExecuteBatchOrderIndependent: only the error and the final table are
  independent of the schedule. The interleaving of the effect log is not.
- SqlStore.SavePayout: a primary-key conflict on a repeated id is one of the
  failures its `failure` argument stands for. The model does not derive that
  conflict from the table.
- The sqlc query layer: it is an abstract table keyed by payout id. The rows a
  list query returns, and their order, are inputs to the list functions.
- Gateway I/O: the Afriex HTTP client, JSON wire types and `GetRates`. Each call
  is an `Ok(id)` or `Err(text)` from the `Rail`. Only the requests' modelled
  fields are kept (no KYC or other metadata besides the narration), and the
  transaction id is only logged by the source.
- The `FindPaymentMethod` stub (internal/adapters/payments/afriex/transaction.go:5-7).
  The workflow never calls it, and it always creates a customer and a payment
  method.
- The notifier (internal/adapters/external/Betaworkos/notifier.go): the service
  never calls it.
- `HandleListAllPayouts` (internal/adapters/handlers/http/payout.go:178-193): it calls
  a service method that does not exist.
- The webhook handler (internal/adapters/handlers/http/payout.go:139-169): it only
  logs, and its route is not registered.
- Configuration, database opening and migration, and route wiring
  (internal/config/config.go, internal/adapters/storage/db/sqlite.go,
  cmd/api/main.go).
- Environment-dependent values: uuids, `time.Now`, `os.Getenv` and logging.
  Uuids are parameters of `HandleBulkPayout`. The clock is a function from the
  save-loop iteration to an instant. The expected API key is a parameter of
  `APIKeyAuth`. Log output is not modelled.
- Request binding and JSON encoding of replies: a bind failure is `None`, and
  reply bodies are datatypes.
- `UpdatedAt`: nothing in the core writes it, so it stays at its zero value.
