/** The per-payout workflow (`processSinglePayout` and `handleError`,
    internal/core/services/payout.go): a PROCESSING write, then up to three
    dependent gateway calls, then exactly one terminal write. */
module Workflow {

  import opened Wrappers
  import opened Domain
  import opened Decimal
  import opened Gateway
  import opened SqlStore

  const LabelCustomer: string := "Failed to create customer"
  const LabelPaymentMethod: string := "Failed to link bank account"
  const LabelTransaction: string := "Transaction failed"
  const ChannelBankAccount: string := "BANK_ACCOUNT"
  const SourceCurrency: string := "USD"
  const NarrationPrefix: string := "Waya Payout - "

  datatype Step = CustomerStep | PaymentMethodStep | TransactionStep

  function Label(step: Step): string {
    match step
    case CustomerStep => LabelCustomer
    case PaymentMethodStep => LabelPaymentMethod
    case TransactionStep => LabelTransaction
  }

  /** A gateway call with the request it carried. */
  datatype Call =
    | CustomerCall(customer: CustomerRequest)
    | PaymentMethodCall(paymentMethod: PaymentMethodRequest)
    | TransactionCall(transaction: TransactionRequest)

  /** Position of a call's step in the workflow. */
  function StepIndex(c: Call): nat {
    match c
    case CustomerCall(_) => 0
    case PaymentMethodCall(_) => 1
    case TransactionCall(_) => 2
  }

  function StepOf(c: Call): Step {
    match c
    case CustomerCall(_) => CustomerStep
    case PaymentMethodCall(_) => PaymentMethodStep
    case TransactionCall(_) => TransactionStep
  }

  /** The rail's answer to a call. */
  function Answer(rail: Rail, c: Call): Result<string, string> {
    match c
    case CustomerCall(r) => rail.createCustomer(r)
    case PaymentMethodCall(r) => rail.createPaymentMethod(r)
    case TransactionCall(r) => rail.createTransaction(r)
  }

  datatype Verdict = Paid(transactionId: string) | Failed(step: Step, cause: string)

  /** The gateway calls made for one payout, in order, and how they ended. */
  datatype Attempt = Attempt(calls: seq<Call>, verdict: Verdict)

  /** The customer's email is synthesized from the wallet tag; the recipient's
      own email is not used. */
  function CustomerEmail(p: Payout): string {
    "temp_" + p.recipientTag + "@waya.com"
  }

  function CustomerRequestFor(p: Payout): CustomerRequest {
    CustomerRequest(
      fullName := p.recipientName,
      email := CustomerEmail(p),
      phone := p.recipientPhone,
      countryCode := p.countryCode)
  }

  function PaymentMethodRequestFor(p: Payout, customerId: string): PaymentMethodRequest {
    PaymentMethodRequest(
      channel := ChannelBankAccount,
      customerId := customerId,
      accountName := p.recipientName,
      accountNumber := p.accountNumber,
      countryCode := p.countryCode,
      institution := Institution(institutionName := "", institutionCode := p.bankCode))
  }

  function TransactionRequestFor(p: Payout, customerId: string, methodId: string): TransactionRequest {
    TransactionRequest(
      customerId := customerId,
      destinationAmount := CentsToDecimal(p.amount),
      destinationCurrency := p.currency,
      sourceCurrency := SourceCurrency,
      destinationId := methodId,
      meta := map["narration" := NarrationPrefix + p.batchId])
  }

  /** Drives one payout through the three gateway steps, stopping at the first error. */
  function Drive(rail: Rail, p: Payout): (a: Attempt)
    // the steps are taken in order, one call each, and stop at the first error
    ensures 1 <= |a.calls| <= 3
    ensures forall i | 0 <= i < |a.calls| :: StepIndex(a.calls[i]) == i
    ensures forall i | 0 <= i < |a.calls| - 1 :: Answer(rail, a.calls[i]).Ok?
    ensures a.verdict.Paid? <==> |a.calls| == 3 && Answer(rail, a.calls[2]).Ok?
    ensures a.verdict.Paid? ==> a.verdict.transactionId == Answer(rail, a.calls[2]).value
    ensures a.verdict.Failed? ==>
      && Answer(rail, a.calls[|a.calls| - 1]) == Err(a.verdict.cause)
      && a.verdict.step == StepOf(a.calls[|a.calls| - 1])
    // what each request carries, including the ids returned by earlier steps
    ensures a.calls[0] == CustomerCall(CustomerRequestFor(p))
    ensures |a.calls| >= 2 ==>
      a.calls[1] == PaymentMethodCall(PaymentMethodRequestFor(p, Answer(rail, a.calls[0]).value))
    ensures |a.calls| == 3 ==>
      a.calls[2] == TransactionCall(TransactionRequestFor(p, Answer(rail, a.calls[0]).value,
                                                          Answer(rail, a.calls[1]).value))
  {
    var c := CustomerCall(CustomerRequestFor(p));
    match Answer(rail, c)
    case Err(e) => Attempt([c], Failed(CustomerStep, e))
    case Ok(customerId) =>
      var m := PaymentMethodCall(PaymentMethodRequestFor(p, customerId));
      match Answer(rail, m)
      case Err(e) => Attempt([c, m], Failed(PaymentMethodStep, e))
      case Ok(methodId) =>
        var t := TransactionCall(TransactionRequestFor(p, customerId, methodId));
        match Answer(rail, t)
        case Err(e) => Attempt([c, m, t], Failed(TransactionStep, e))
        case Ok(transactionId) => Attempt([c, m, t], Paid(transactionId))
  }

  /** A status write: the status and the error message to store. */
  datatype StatusUpdate = StatusUpdate(status: string, message: string)

  /** The terminal write for a verdict: SUCCESS with no message, or FAILED with
      "<label>: <error>". */
  function Settlement(v: Verdict): (u: StatusUpdate)
    ensures IsTerminal(u.status)
    ensures u.status == StatusSuccess <==> v.Paid?
    ensures u.message == "" <==> v.Paid?
    ensures v.Failed? ==> u.message == Label(v.step) + ": " + v.cause
  {
    match v
    case Paid(_) => StatusUpdate(StatusSuccess, "")
    case Failed(step, cause) => StatusUpdate(StatusFailed, Label(step) + ": " + cause)
  }

  /** How the database answers writes: `Some(error)` when the query fails. */
  datatype Repo = Repo(
    saveFailure: Payout -> Option<string>,
    updateFailure: (string, StatusUpdate) -> Option<string>)

  datatype Env = Env(repo: Repo, rail: Rail)

  /** Something the engine did, in the order it did it. */
  datatype Effect =
    | Saved(payout: Payout)
    | StatusWrite(id: string, update: StatusUpdate)
    | GatewayCall(call: Call)

  function CallEffects(calls: seq<Call>): (es: seq<Effect>)
    ensures |es| == |calls|
    ensures forall i | 0 <= i < |calls| :: es[i] == GatewayCall(calls[i])
  {
    seq(|calls|, i requires 0 <= i < |calls| => GatewayCall(calls[i]))
  }

  /** One status write applied to a row: lands unless the database rejects it. */
  function ApplyUpdate(env: Env, id: string, u: StatusUpdate, row: Row): Row {
    if env.repo.updateFailure(id, u).None? then
      row.(status := u.status, errorMessage := Nullable(u.message))
    else
      row
  }

  /** The payout's row after its worker, as a function of the row before it. */
  function SettledRow(env: Env, p: Payout, row: Row): (r: Row)
    ensures var u := Settlement(Drive(env.rail, p).verdict);
      && (env.repo.updateFailure(p.id, u).None? ==>
            r.status == u.status && StringOf(r.errorMessage) == u.message)
      && (env.repo.updateFailure(p.id, u).Some? ==>
            r.status in {row.status, StatusProcessing})
    ensures r.(status := row.status, errorMessage := row.errorMessage) == row
  {
    var processing := StatusUpdate(StatusProcessing, "");
    ApplyUpdate(env, p.id, Settlement(Drive(env.rail, p).verdict),
                ApplyUpdate(env, p.id, processing, row))
  }

  datatype Processed = Processed(table: Table, effects: seq<Effect>)

  /** processSinglePayout: PROCESSING, the gateway steps, one terminal write.
      Write errors are ignored, as the source discards them. */
  function ProcessSinglePayout(env: Env, t: Table, p: Payout): (r: Processed)
    // only the payout's own row changes, and only through its two writes
    ensures r.table.Keys == t.Keys
    ensures forall k | k in t && k != p.id :: r.table[k] == t[k]
    ensures p.id in t ==> r.table[p.id] == SettledRow(env, p, t[p.id])
    // PROCESSING first, then only gateway calls, then exactly one terminal write
    ensures |r.effects| >= 3
    ensures r.effects[0] == StatusWrite(p.id, StatusUpdate(StatusProcessing, ""))
    ensures forall i | 0 < i < |r.effects| - 1 :: r.effects[i].GatewayCall?
    ensures var last := r.effects[|r.effects| - 1];
      last.StatusWrite? && last.id == p.id && IsTerminal(last.update.status)
    ensures r.effects[1..|r.effects| - 1] == CallEffects(Drive(env.rail, p).calls)
    ensures r.effects[|r.effects| - 1].update == Settlement(Drive(env.rail, p).verdict)
  {
    var processing := StatusUpdate(StatusProcessing, "");
    var t1 := UpdatePayoutStatus(t, p.id, processing.status, processing.message,
                                 env.repo.updateFailure(p.id, processing)).table;
    var a := Drive(env.rail, p);
    var u := Settlement(a.verdict);
    var t2 := UpdatePayoutStatus(t1, p.id, u.status, u.message, env.repo.updateFailure(p.id, u)).table;
    assert p.id in t ==> t2[p.id] == ApplyUpdate(env, p.id, u, ApplyUpdate(env, p.id, processing, t[p.id]));
    Processed(t2, WorkerEffects(p.id, a.calls, u))
  }

  /** The worker's effect log: PROCESSING, its gateway calls, the settling write. */
  function WorkerEffects(id: string, calls: seq<Call>, u: StatusUpdate): (es: seq<Effect>)
    ensures |es| == |calls| + 2
    ensures es[0] == StatusWrite(id, StatusUpdate(StatusProcessing, ""))
    ensures es[1..|es| - 1] == CallEffects(calls)
    ensures forall i | 0 < i < |es| - 1 :: es[i] == GatewayCall(calls[i - 1])
    ensures es[|es| - 1] == StatusWrite(id, u)
  {
    var es := [StatusWrite(id, StatusUpdate(StatusProcessing, ""))] + CallEffects(calls) + [StatusWrite(id, u)];
    assert es[1..|es| - 1] == CallEffects(calls);
    es
  }

  /** Number of terminal status writes for `id` among the effects. */
  function TerminalWrites(effects: seq<Effect>, id: string): nat {
    if |effects| == 0 then 0
    else
      var e := effects[|effects| - 1];
      TerminalWrites(effects[..|effects| - 1], id)
        + (if e.StatusWrite? && e.id == id && IsTerminal(e.update.status) then 1 else 0)
  }

  lemma {:induction false} TerminalWritesAppend(a: seq<Effect>, b: seq<Effect>, id: string)
    ensures TerminalWrites(a + b, id) == TerminalWrites(a, id) + TerminalWrites(b, id)
    decreases |b|
  {
    if |b| == 0 {
      assert a + b == a;
    } else {
      assert (a + b)[..|a + b| - 1] == a + b[..|b| - 1];
      TerminalWritesAppend(a, b[..|b| - 1], id);
    }
  }

  /** A worker writes exactly one terminal status for its own payout and none for others. */
  lemma WorkerWritesOneTerminal(env: Env, t: Table, p: Payout, id: string)
    ensures TerminalWrites(ProcessSinglePayout(env, t, p).effects, id) == if id == p.id then 1 else 0
  {
    var es := ProcessSinglePayout(env, t, p).effects;
    var n := |es|;
    NoTerminalWritesWithoutStatusWrites(es[1..n - 1], id);
    assert es == [es[0]] + es[1..n - 1] + [es[n - 1]];
    TerminalWritesAppend([es[0]] + es[1..n - 1], [es[n - 1]], id);
    TerminalWritesAppend([es[0]], es[1..n - 1], id);
    assert TerminalWrites([es[0]], id) == 0 by {
      assert [es[0]][..0] == [];
    }
    assert [es[n - 1]][..0] == [];
  }

  lemma {:induction false} NoTerminalWritesWithoutStatusWrites(es: seq<Effect>, id: string)
    requires forall i | 0 <= i < |es| :: !es[i].StatusWrite?
    ensures TerminalWrites(es, id) == 0
    decreases |es|
  {
    if |es| > 0 {
      NoTerminalWritesWithoutStatusWrites(es[..|es| - 1], id);
    }
  }

  /** The customer request does not depend on the recipient's email. */
  lemma CustomerRequestIgnoresRecipientEmail(p: Payout, email: string)
    ensures CustomerRequestFor(p.(recipientEmail := email)) == CustomerRequestFor(p)
  {
  }

  /** A failure at one step ends the workflow there: the call log stops at that
      step and the stored message names it. */
  lemma FailureStopsAtStep(rail: Rail, p: Payout)
    requires Drive(rail, p).verdict.Failed?
    ensures var a := Drive(rail, p);
      && |a.calls| == StepIndex(a.calls[|a.calls| - 1]) + 1
      && Settlement(a.verdict) == StatusUpdate(StatusFailed, Label(a.verdict.step) + ": " + a.verdict.cause)
      && (a.verdict.step == CustomerStep <==> |a.calls| == 1)
      && (a.verdict.step == PaymentMethodStep <==> |a.calls| == 2)
      && (a.verdict.step == TransactionStep <==> |a.calls| == 3)
  {
  }
}
