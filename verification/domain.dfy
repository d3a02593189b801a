/** The payout entities and their status vocabulary (internal/core/domain/payout.go). */
module Domain {

  const StatusPending: string := "PENDING"
  const StatusProcessing: string := "PROCESSING"
  const StatusSuccess: string := "SUCCESS"
  const StatusFailed: string := "FAILED"

  /** SUCCESS and FAILED are the statuses a worker ends in. */
  predicate IsTerminal(status: string) {
    status == StatusSuccess || status == StatusFailed
  }

  lemma StatusesDistinct()
    ensures StatusPending != StatusProcessing && StatusPending != StatusSuccess
    ensures StatusPending != StatusFailed && StatusProcessing != StatusSuccess
    ensures StatusProcessing != StatusFailed && StatusSuccess != StatusFailed
    ensures !IsTerminal(StatusPending) && !IsTerminal(StatusProcessing)
  {
  }

  /** One money transfer. `amount` is in minor units (an int64 in the source);
      timestamps are instants as integers, 0 standing for Go's zero time. */
  datatype Payout = Payout(
    id: string,
    batchId: string,
    referenceId: string,
    recipientName: string,
    recipientPhone: string,
    recipientEmail: string,
    recipientTag: string,
    countryCode: string,
    bankCode: string,
    accountNumber: string,
    bankName: string,
    amount: int,
    currency: string,
    status: string,
    errorMessage: string,
    createdAt: int,
    updatedAt: int)

  /** A view over the payouts that share one batch id. */
  datatype Batch = Batch(
    id: string,
    totalAmount: int,
    totalCount: nat,
    status: string,
    payouts: seq<Payout>)

  /** No two payouts of the sequence share an id. */
  predicate DistinctIds(payouts: seq<Payout>) {
    forall i, j | 0 <= i < j < |payouts| :: payouts[i].id != payouts[j].id
  }
}
