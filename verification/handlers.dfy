/** The HTTP handlers around the engine (internal/adapters/handlers/http/payout.go):
    the mapping of a bulk submission to domain payouts, and the batch status
    query with its error-to-status-code mapping. Request binding, uuid
    generation and the background goroutine are outside the model: the bound
    request (or None when binding failed) and the uuids are parameters. */
module Handlers {

  import opened Wrappers
  import opened Domain
  import opened Gateway
  import opened SqlStore
  import opened Workflow
  import Engine
  import Queries

  const StatusOK: int := 200
  const StatusAccepted: int := 202
  const StatusBadRequest: int := 400
  const StatusUnauthorized: int := 401
  const StatusNotFound: int := 404
  const StatusInternalServerError: int := 500

  /** A JSON response body. */
  datatype Body =
    | ErrorBody(error: string)
    | BatchBody(batch: Batch)
    | AcceptedBody(batchId: string, status: string, message: string)
    | OtherBody

  datatype Reply = Reply(code: int, body: Body)

  /** One submitted item; the amount is already in minor units. */
  datatype PayoutItem = PayoutItem(
    recipientName: string,
    recipientPhone: string,
    recipientEmail: string,
    countryCode: string,
    bankCode: string,
    accountNumber: string,
    amount: int,
    currency: string)

  datatype BulkPayoutRequest = BulkPayoutRequest(batchReference: string, items: seq<PayoutItem>)

  /** The canonical text form of a version-4 uuid is 36 characters long. */
  type Uuid = s: string | |s| == 36 witness "00000000-0000-0000-0000-000000000000"

  /** The batch and its payouts handed to ExecuteBatch in the background. */
  datatype Dispatch = Dispatch(batchId: string, payouts: seq<Payout>)

  datatype Submission = Submission(reply: Reply, dispatch: Option<Dispatch>)

  /** The domain payout built from one item. Fields the item does not carry
      (tag, bank name, status, message, timestamps) keep Go's zero values. */
  function ItemToPayout(item: PayoutItem, batchId: string, batchReference: string,
                        id: Uuid, referenceUuid: Uuid): Payout
  {
    Payout(
      id := id,
      batchId := batchId,
      referenceId := batchReference + "-" + referenceUuid[0..8],
      recipientName := item.recipientName,
      recipientPhone := item.recipientPhone,
      recipientEmail := item.recipientEmail,
      recipientTag := "",
      countryCode := item.countryCode,
      bankCode := item.bankCode,
      accountNumber := item.accountNumber,
      bankName := "",
      amount := item.amount,
      currency := item.currency,
      status := "",
      errorMessage := "",
      createdAt := 0,
      updatedAt := 0)
  }

  const InvalidJson: string := "Invalid JSON"
  const AcceptedStatus: string := "PROCESSING"

  function AcceptedMessage(batchId: string): string {
    "Batch accepted. Check status via /payouts/status/" + batchId
  }

  /** HandleBulkPayout: a bind failure is a 400; otherwise one payout per item,
      in item order, all in one fresh batch, and an immediate 202 that does not
      depend on how the batch will end. `ids[i]` and `refs[i]` are the two uuids
      drawn for item i. */
  function HandleBulkPayout(bound: Option<BulkPayoutRequest>, batchUuid: Uuid,
                            ids: seq<Uuid>, refs: seq<Uuid>): (s: Submission)
    requires bound.Some? ==> |ids| == |bound.value.items| && |refs| == |bound.value.items|
    ensures bound.None? ==> s.reply == Reply(StatusBadRequest, ErrorBody(InvalidJson)) && s.dispatch.None?
    ensures bound.Some? ==>
      && s.reply == Reply(StatusAccepted, AcceptedBody(batchUuid, AcceptedStatus, AcceptedMessage(batchUuid)))
      && s.dispatch.Some?
      && s.dispatch.value.batchId == batchUuid
      && |s.dispatch.value.payouts| == |bound.value.items|
    ensures bound.Some? ==>
      var req := bound.value;
      var ps := s.dispatch.value.payouts;
      forall i | 0 <= i < |ps| ::
        && ps[i].id == ids[i]
        && ps[i].batchId == batchUuid
        && |ps[i].referenceId| == |req.batchReference| + 9
        && ps[i].referenceId[..|req.batchReference| + 1] == req.batchReference + "-"
        && ps[i].referenceId[|req.batchReference| + 1..] == refs[i][..8]
        && ps[i].recipientTag == "" && ps[i].bankName == ""
        && ps[i].amount == req.items[i].amount
        && ps[i].currency == req.items[i].currency
        && ps[i].recipientName == req.items[i].recipientName
        && ps[i].recipientPhone == req.items[i].recipientPhone
        && ps[i].recipientEmail == req.items[i].recipientEmail
        && ps[i].countryCode == req.items[i].countryCode
        && ps[i].accountNumber == req.items[i].accountNumber
        && ps[i].bankCode == req.items[i].bankCode
        && ps[i].status == "" && ps[i].errorMessage == ""
  {
    match bound
    case None => Submission(Reply(StatusBadRequest, ErrorBody(InvalidJson)), None)
    case Some(req) =>
      var payouts := seq(|req.items|, i requires 0 <= i < |req.items| =>
        ItemToPayout(req.items[i], batchUuid, req.batchReference, ids[i], refs[i]));
      Submission(Reply(StatusAccepted, AcceptedBody(batchUuid, AcceptedStatus, AcceptedMessage(batchUuid))),
                 Some(Dispatch(batchUuid, payouts)))
  }

  /** Distinct item uuids give the dispatched payouts distinct ids, which the
      engine's order-independence needs. */
  lemma SubmittedIdsDistinct(req: BulkPayoutRequest, batchUuid: Uuid, ids: seq<Uuid>, refs: seq<Uuid>)
    requires |ids| == |req.items| && |refs| == |req.items|
    requires forall i, j | 0 <= i < j < |ids| :: ids[i] != ids[j]
    ensures DistinctIds(HandleBulkPayout(Some(req), batchUuid, ids, refs).dispatch.value.payouts)
  {
  }

  /** Every submitted payout reaches the gateway with the customer email
      "temp_@waya.com", since submissions carry no wallet tag, and with the
      narration of its own batch. */
  lemma SubmittedGatewayRequests(req: BulkPayoutRequest, batchUuid: Uuid, ids: seq<Uuid>, refs: seq<Uuid>,
                                 i: nat, customerId: string, methodId: string)
    requires |ids| == |req.items| && |refs| == |req.items|
    requires i < |req.items|
    ensures var p := HandleBulkPayout(Some(req), batchUuid, ids, refs).dispatch.value.payouts[i];
      && CustomerRequestFor(p).email == "temp_@waya.com"
      && TransactionRequestFor(p, customerId, methodId).meta["narration"] == NarrationPrefix + batchUuid
  {
  }

  /** A submitted payout, once saved by the engine, reads back from a listing
      exactly as saved apart from the timestamp: the fields a listing drops are
      empty in every submission. */
  lemma SubmittedPayoutReadsBack(req: BulkPayoutRequest, batchUuid: Uuid, ids: seq<Uuid>, refs: seq<Uuid>,
                                 i: nat, now: int)
    requires |ids| == |req.items| && |refs| == |req.items|
    requires i < |req.items|
    ensures var p := HandleBulkPayout(Some(req), batchUuid, ids, refs).dispatch.value.payouts[i];
      var saved := Engine.Stamp(p, batchUuid, now);
      DecodeListRow(EncodeRow(saved)) == saved.(createdAt := 0)
  {
    var p := HandleBulkPayout(Some(req), batchUuid, ids, refs).dispatch.value.payouts[i];
    ListReadBack(Engine.Stamp(p, batchUuid, now));
  }

  const BatchNotFound: string := "Batch ID not found"
  const BatchLookupFailed: string := "Failed to retrieve batch status"

  /** GetBatchStatus: an error whose text is "not found" is a 404, any other
      error a 500; otherwise a 200 with the batch summary. */
  function GetBatchStatus(batchId: string, listed: Result<seq<Payout>, string>): (r: Reply)
    ensures r.code == StatusNotFound <==> listed.Err? && listed.error == NotFound
    ensures r.code == StatusInternalServerError <==> listed.Err? && listed.error != NotFound
    ensures r.code == StatusNotFound ==> r.body == ErrorBody(BatchNotFound)
    ensures r.code == StatusInternalServerError ==> r.body == ErrorBody(BatchLookupFailed)
    ensures listed.Ok? ==>
      r.code == StatusOK && r.body.BatchBody? && r.body.batch == Queries.Summarize(batchId, listed.value)
  {
    match listed
    case Err(e) =>
      if e == NotFound then Reply(StatusNotFound, ErrorBody(BatchNotFound))
      else Reply(StatusInternalServerError, ErrorBody(BatchLookupFailed))
    case Ok(payouts) => Reply(StatusOK, BatchBody(Queries.Summarize(batchId, payouts)))
  }

  /** The whole status query over the rows the batch query returned. */
  function BatchStatus(batchId: string, rows: Result<seq<Row>, string>): Reply {
    GetBatchStatus(batchId, Queries.ListPayoutsByBatchID(SqlStore.ListPayoutsByBatchID(rows), batchId))
  }

  /** The status query answers 404 exactly when the rows hold no payout of the
      batch (or the query's own error reads "not found"), 500 on any other query
      error, and otherwise reports the matching rows, their count and total. */
  lemma BatchStatusCodes(batchId: string, rows: Result<seq<Row>, string>)
    ensures var r := BatchStatus(batchId, rows);
      && (r.code == StatusNotFound <==>
            (rows.Ok? && forall i | 0 <= i < |rows.value| :: StringOf(rows.value[i].batchId) != batchId)
            || rows == Err(NotFound))
      && (r.code == StatusInternalServerError <==> rows.Err? && rows.error != NotFound)
      && (r.code == StatusOK ==>
            rows.Ok?
            && r.body.batch.payouts == Queries.InBatch(DecodeRows(rows.value), batchId)
            && r.body.batch.totalCount == |r.body.batch.payouts| > 0)
  {
    if rows.Ok? {
      var decoded := DecodeRows(rows.value);
      assert forall i | 0 <= i < |rows.value| :: decoded[i].batchId == StringOf(rows.value[i].batchId);
    }
  }

  /** A batch whose query returns no rows is a 404. */
  lemma EmptyBatchIsNotFound(batchId: string)
    ensures BatchStatus(batchId, Ok([])) == Reply(StatusNotFound, ErrorBody(BatchNotFound))
  {
  }
}
