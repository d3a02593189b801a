/** A worked batch: three payouts, where the gateway refuses to create the
    second recipient's customer. The other two succeed, the second one is
    FAILED with the customer step's label, and nothing else is affected. */
module Scenario {

  import opened Wrappers
  import opened Domain
  import opened Gateway
  import opened SqlStore
  import opened Workflow
  import opened Engine

  function Recipient(id: string, name: string, amount: int): Payout {
    Payout(id, "batch-1", "ref-" + id, name, "+234", "", "", "NG", "033", "2000012345", "",
           amount, "NGN", "", "", 0, 0)
  }

  function ThreePayouts(): seq<Payout> {
    [Recipient("p1", "Ada", 500000), Recipient("p2", "Bola", 10050), Recipient("p3", "Chi", 7)]
  }

  /** A rail that refuses to create Bola's customer and accepts everything else. */
  function RefusesBola(): Rail {
    Rail(
      (r: CustomerRequest) => if r.fullName == "Bola" then Err("duplicate email") else Ok("cus-" + r.fullName),
      (r: PaymentMethodRequest) => Ok("pm-" + r.customerId),
      (r: TransactionRequest) => Ok("tx-" + r.destinationId))
  }

  /** A database that accepts every write. */
  function ReliableRepo(): Repo {
    Repo((p: Payout) => None, (id: string, u: StatusUpdate) => None)
  }

  lemma ThreePayoutScenario(clock: nat -> int, order: seq<nat>)
    requires IsSchedule(order, 3)
    ensures var r := ExecuteBatch(Env(ReliableRepo(), RefusesBola()), clock, map[], "batch-1", ThreePayouts(), order);
      && r.error.None?
      && r.table.Keys == {"p1", "p2", "p3"}
      && r.table["p1"].status == StatusSuccess
      && r.table["p2"].status == StatusFailed
      && StringOf(r.table["p2"].errorMessage) == LabelCustomer + ": " + "duplicate email"
      && r.table["p3"].status == StatusSuccess
  {
    ScenarioAccepted(clock, order);
    BolaRefused();
    OthersPaid();
    ScenarioSettles(clock, order, 0);
    ScenarioSettles(clock, order, 1);
    ScenarioSettles(clock, order, 2);
  }

  /** Every save succeeds, so the batch is accepted and all three rows exist. */
  lemma ScenarioAccepted(clock: nat -> int, order: seq<nat>)
    requires IsSchedule(order, 3)
    ensures var r := ExecuteBatch(Env(ReliableRepo(), RefusesBola()), clock, map[], "batch-1", ThreePayouts(), order);
      && r.error.None?
      && r.table.Keys == {"p1", "p2", "p3"}
  {
    var ps := ThreePayouts();
    IdsOfStep(ps, 0, 3);
    IdsOfStep(ps, 1, 3);
    IdsOfStep(ps, 2, 3);
    assert IdsOf(ps, 3, 3) == {};
  }

  /** Each payout's row ends with the status and message its gateway verdict settles on. */
  lemma ScenarioSettles(clock: nat -> int, order: seq<nat>, j: nat)
    requires IsSchedule(order, 3)
    requires j < 3
    ensures var r := ExecuteBatch(Env(ReliableRepo(), RefusesBola()), clock, map[], "batch-1", ThreePayouts(), order);
      var u := Settlement(Drive(RefusesBola(), ThreePayouts()[j]).verdict);
      && ThreePayouts()[j].id in r.table
      && r.table[ThreePayouts()[j].id].status == u.status
      && StringOf(r.table[ThreePayouts()[j].id].errorMessage) == u.message
  {
    var env := Env(ReliableRepo(), RefusesBola());
    var ps := ThreePayouts();
    assert DistinctIds(ps);
    ScenarioAccepted(clock, order);
    ExecuteBatchSettles(env, clock, map[], "batch-1", ps, order, j);
  }

  lemma BolaRefused()
    ensures Drive(RefusesBola(), ThreePayouts()[1]).verdict == Failed(CustomerStep, "duplicate email")
  {
  }

  lemma OthersPaid()
    ensures Drive(RefusesBola(), ThreePayouts()[0]).verdict.Paid?
    ensures Drive(RefusesBola(), ThreePayouts()[2]).verdict.Paid?
  {
  }
}
