/** The service's batch listing (`ListPayoutsByBatchID`, internal/core/services/payout.go)
    and the batch summary built by `GetBatchStatus`
    (internal/adapters/handlers/http/payout.go): filter, sum and count. */
module Queries {

  import opened Wrappers
  import opened Domain
  import Int64
  import SqlStore

  /** The payouts whose batch id is `batchId`, in their original order. */
  function InBatch(payouts: seq<Payout>, batchId: string): (r: seq<Payout>)
    ensures |r| <= |payouts|
    ensures forall i | 0 <= i < |r| :: r[i].batchId == batchId
    ensures forall p :: p in r <==> p in payouts && p.batchId == batchId
    decreases |payouts|
  {
    if |payouts| == 0 then []
    else
      var last := payouts[|payouts| - 1];
      InBatch(payouts[..|payouts| - 1], batchId) + (if last.batchId == batchId then [last] else [])
  }

  /** Filtering distributes over concatenation, so it keeps the relative order. */
  lemma {:induction false} InBatchAppend(a: seq<Payout>, b: seq<Payout>, batchId: string)
    ensures InBatch(a + b, batchId) == InBatch(a, batchId) + InBatch(b, batchId)
    decreases |b|
  {
    if |b| == 0 {
      assert a + b == a;
    } else {
      assert (a + b)[..|a + b| - 1] == a + b[..|b| - 1];
      InBatchAppend(a, b[..|b| - 1], batchId);
    }
  }

  /** Each matching payout is kept as often as it occurs; no other is kept. */
  lemma {:induction false} InBatchCounts(payouts: seq<Payout>, batchId: string, p: Payout)
    ensures multiset(InBatch(payouts, batchId))[p]
         == if p.batchId == batchId then multiset(payouts)[p] else 0
    decreases |payouts|
  {
    if |payouts| > 0 {
      var init := payouts[..|payouts| - 1];
      var last := payouts[|payouts| - 1];
      var kept := if last.batchId == batchId then [last] else [];
      InBatchCounts(init, batchId, p);
      assert payouts == init + [last];
      assert multiset(payouts) == multiset(init) + multiset{last};
      assert InBatch(payouts, batchId) == InBatch(init, batchId) + kept;
      assert multiset(InBatch(payouts, batchId)) == multiset(InBatch(init, batchId)) + multiset(kept);
    }
  }

  /** A listing that holds only the batch's payouts comes back whole. */
  lemma {:induction false} InBatchKeepsMembers(payouts: seq<Payout>, batchId: string)
    requires forall i | 0 <= i < |payouts| :: payouts[i].batchId == batchId
    ensures InBatch(payouts, batchId) == payouts
    decreases |payouts|
  {
    if |payouts| > 0 {
      InBatchKeepsMembers(payouts[..|payouts| - 1], batchId);
      assert payouts == payouts[..|payouts| - 1] + [payouts[|payouts| - 1]];
    }
  }

  /** ListPayoutsByBatchID: a repository error is passed on unchanged; otherwise
      the matching payouts, or "not found" when there are none. */
  function ListPayoutsByBatchID(listed: Result<seq<Payout>, string>, batchId: string): (r: Result<seq<Payout>, string>)
    ensures listed.Err? ==> r == listed
    ensures listed.Ok? ==>
      (r.Err? <==> forall i | 0 <= i < |listed.value| :: listed.value[i].batchId != batchId)
    ensures listed.Ok? && r.Err? ==> r.error == SqlStore.NotFound
    ensures r.Ok? ==> |r.value| > 0 && r.value == InBatch(listed.value, batchId)
  {
    match listed
    case Err(e) => Err(e)
    case Ok(all) =>
      var members := InBatch(all, batchId);
      if |members| == 0 then
        Err(SqlStore.NotFound)
      else
        assert members[0] in all;
        Ok(members)
  }

  /** The exact sum of the amounts. */
  function Sum(payouts: seq<Payout>): int
    decreases |payouts|
  {
    if |payouts| == 0 then 0 else Sum(payouts[..|payouts| - 1]) + payouts[|payouts| - 1].amount
  }

  lemma {:induction false} SumAppend(a: seq<Payout>, b: seq<Payout>)
    ensures Sum(a + b) == Sum(a) + Sum(b)
    decreases |b|
  {
    if |b| == 0 {
      assert a + b == a;
    } else {
      assert (a + b)[..|a + b| - 1] == a + b[..|b| - 1];
      SumAppend(a, b[..|b| - 1]);
    }
  }

  /** The handler's int64 accumulator: each addition wraps around. It always
      equals the exact sum wrapped once. */
  function RunningTotal(payouts: seq<Payout>): (total: int)
    ensures total == Int64.Wrap(Sum(payouts))
    ensures Int64.InRange(Sum(payouts)) ==> total == Sum(payouts)
    decreases |payouts|
  {
    if |payouts| == 0 then 0
    else
      var init := payouts[..|payouts| - 1];
      var a := payouts[|payouts| - 1].amount;
      Int64.WrapAdd(Sum(init), a);
      Int64.Wrap(RunningTotal(init) + a)
  }

  const CompletedStatus: string := "COMPLETED"

  /** The batch view GetBatchStatus reports: the members unchanged, their count,
      the int64 total of their amounts, and the fixed status "COMPLETED". */
  function Summarize(batchId: string, payouts: seq<Payout>): (b: Batch)
    ensures b.id == batchId && b.payouts == payouts
    ensures b.totalCount == |payouts|
    ensures b.totalAmount == Int64.Wrap(Sum(payouts))
    ensures Int64.InRange(Sum(payouts)) ==> b.totalAmount == Sum(payouts)
    ensures b.status == CompletedStatus
  {
    Batch(id := batchId, totalAmount := RunningTotal(payouts), totalCount := |payouts|,
          status := CompletedStatus, payouts := payouts)
  }

  /** The summary's count, total and status depend only on the members'
      amounts, never on their statuses or messages. */
  lemma {:induction false} SummaryIgnoresStatuses(batchId: string, a: seq<Payout>, b: seq<Payout>)
    requires |a| == |b|
    requires forall i | 0 <= i < |a| :: a[i].amount == b[i].amount
    ensures Summarize(batchId, a).totalAmount == Summarize(batchId, b).totalAmount
    ensures Summarize(batchId, a).totalCount == Summarize(batchId, b).totalCount
    ensures Summarize(batchId, a).status == Summarize(batchId, b).status
    decreases |a|
  {
    SameAmountsSameSum(a, b);
  }

  lemma {:induction false} SameAmountsSameSum(a: seq<Payout>, b: seq<Payout>)
    requires |a| == |b|
    requires forall i | 0 <= i < |a| :: a[i].amount == b[i].amount
    ensures Sum(a) == Sum(b)
    decreases |a|
  {
    if |a| > 0 {
      SameAmountsSameSum(a[..|a| - 1], b[..|b| - 1]);
    }
  }
}
