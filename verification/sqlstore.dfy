/** The SQLite repository (internal/adapters/storage/db/payouts.go): how a payout
    is encoded into a row with nullable columns, how rows map back to payouts, and
    the table operations the engine uses. The sqlc query layer is an abstract table
    keyed by payout id; the failures a query may report are parameters. */
module SqlStore {

  import opened Wrappers
  import opened Domain

  /** Content of a nullable TEXT column. */
  datatype NullString = Null | Text(text: string)

  /** `sql.NullString{String: s, Valid: s != ""}`: the empty string is stored as NULL. */
  function Nullable(s: string): (n: NullString)
    ensures n.Null? <==> s == ""
    ensures n.Text? ==> n.text == s
  {
    if s == "" then Null else Text(s)
  }

  /** The `.String` field of a column read back: NULL reads as "". */
  function StringOf(n: NullString): string {
    match n
    case Null => ""
    case Text(s) => s
  }

  /** Encoding then reading back gives every string back, empty or not. */
  lemma NullableRoundTrip(s: string)
    ensures StringOf(Nullable(s)) == s
  {
  }

  datatype Row = Row(
    id: string,
    batchId: NullString,
    referenceId: string,
    recipientName: string,
    recipientPhone: string,
    recipientEmail: NullString,
    recipientTag: NullString,
    countryCode: string,
    bankCode: NullString,
    accountNumber: NullString,
    bankName: NullString,
    amount: int,
    currency: string,
    status: string,
    errorMessage: NullString)

  type Table = map<string, Row>

  /** The row SavePayout inserts. Timestamps and the error message are not
      among the insert parameters. */
  function EncodeRow(p: Payout): (row: Row)
    ensures row.id == p.id && row.status == p.status && row.amount == p.amount
    ensures row.recipientEmail.Null? <==> p.recipientEmail == ""
    ensures row.recipientTag.Null? <==> p.recipientTag == ""
    ensures row.bankCode.Null? <==> p.bankCode == ""
    ensures row.accountNumber.Null? <==> p.accountNumber == ""
    ensures row.bankName.Null? <==> p.bankName == ""
    ensures row.batchId.Null? <==> p.batchId == ""
    ensures row.errorMessage.Null?
  {
    Row(
      id := p.id,
      batchId := Nullable(p.batchId),
      referenceId := p.referenceId,
      recipientName := p.recipientName,
      recipientPhone := p.recipientPhone,
      recipientEmail := Nullable(p.recipientEmail),
      recipientTag := Nullable(p.recipientTag),
      countryCode := p.countryCode,
      bankCode := Nullable(p.bankCode),
      accountNumber := Nullable(p.accountNumber),
      bankName := Nullable(p.bankName),
      amount := p.amount,
      currency := p.currency,
      status := p.status,
      errorMessage := Null)
  }

  /** The rest of the insert: the required columns are copied, and each
      optional column that is not NULL holds the payout's text. */
  lemma EncodeRowColumns(p: Payout)
    ensures var row := EncodeRow(p);
      && row.referenceId == p.referenceId && row.recipientName == p.recipientName
      && row.recipientPhone == p.recipientPhone && row.countryCode == p.countryCode
      && row.currency == p.currency
      && row.recipientEmail == Nullable(p.recipientEmail) && row.recipientTag == Nullable(p.recipientTag)
      && row.bankCode == Nullable(p.bankCode) && row.accountNumber == Nullable(p.accountNumber)
      && row.bankName == Nullable(p.bankName) && row.batchId == Nullable(p.batchId)
  {
  }

  /** The row-to-payout mapping of ListPayouts and ListPayoutsByBatchID. The tag,
      the error message and the timestamps are not mapped back. */
  function DecodeListRow(row: Row): (p: Payout)
    ensures p.recipientTag == "" && p.errorMessage == ""
    ensures p.createdAt == 0 && p.updatedAt == 0
    ensures p.batchId == StringOf(row.batchId) && p.bankName == StringOf(row.bankName)
    ensures p.id == row.id && p.status == row.status && p.amount == row.amount
  {
    Payout(
      id := row.id,
      batchId := StringOf(row.batchId),
      referenceId := row.referenceId,
      recipientName := row.recipientName,
      recipientPhone := row.recipientPhone,
      recipientEmail := StringOf(row.recipientEmail),
      recipientTag := "",
      countryCode := row.countryCode,
      bankCode := StringOf(row.bankCode),
      accountNumber := StringOf(row.accountNumber),
      bankName := StringOf(row.bankName),
      amount := row.amount,
      currency := row.currency,
      status := row.status,
      errorMessage := "",
      createdAt := 0,
      updatedAt := 0)
  }

  /** The row-to-payout mapping of GetPayout: the list mapping without the bank name. */
  function DecodeGetRow(row: Row): (p: Payout)
    ensures p == DecodeListRow(row).(bankName := "")
  {
    Payout(
      id := row.id,
      batchId := StringOf(row.batchId),
      referenceId := row.referenceId,
      recipientName := row.recipientName,
      recipientPhone := row.recipientPhone,
      recipientEmail := StringOf(row.recipientEmail),
      recipientTag := "",
      countryCode := row.countryCode,
      bankCode := StringOf(row.bankCode),
      accountNumber := StringOf(row.accountNumber),
      bankName := "",
      amount := row.amount,
      currency := row.currency,
      status := row.status,
      errorMessage := "",
      createdAt := 0,
      updatedAt := 0)
  }

  /** What a list read gives back for a saved payout: every field except the
      tag, the error message and the timestamps. */
  lemma ListReadBack(p: Payout)
    ensures DecodeListRow(EncodeRow(p))
         == p.(recipientTag := "", errorMessage := "", createdAt := 0, updatedAt := 0)
  {
  }

  /** GetPayout additionally loses the bank name. */
  lemma GetReadBack(p: Payout)
    ensures DecodeGetRow(EncodeRow(p))
         == p.(recipientTag := "", bankName := "", errorMessage := "", createdAt := 0, updatedAt := 0)
  {
  }

  /** A payout survives a list read unchanged exactly when the fields that are
      not mapped back were already empty. */
  lemma ListReadBackExact(p: Payout)
    ensures DecodeListRow(EncodeRow(p)) == p
        <==> p.recipientTag == "" && p.errorMessage == "" && p.createdAt == 0 && p.updatedAt == 0
  {
    if DecodeListRow(EncodeRow(p)) == p {
      ListReadBack(p);
    }
  }

  /** Result of a write: the table afterwards and the error the query reported. */
  datatype Written = Written(table: Table, error: Option<string>)

  /** SavePayout: inserts the encoded row unless the insert fails with `failure`. */
  function SavePayout(t: Table, p: Payout, failure: Option<string>): (w: Written)
    ensures w.error == failure
    ensures failure.Some? ==> w.table == t
    ensures failure.None? ==> w.table.Keys == t.Keys + {p.id} && w.table[p.id] == EncodeRow(p)
    ensures forall k | k in t && k != p.id :: w.table[k] == t[k]
  {
    if failure.Some? then Written(t, failure) else Written(t[p.id := EncodeRow(p)], None)
  }

  /** UpdatePayoutStatus: sets the status and the error message (NULL when
      empty) of the row with that id; an id with no row leaves the table as it
      is and is not an error. */
  function UpdatePayoutStatus(t: Table, id: string, status: string, message: string,
                              failure: Option<string>): (w: Written)
    ensures w.error == failure
    ensures w.table.Keys == t.Keys
    ensures forall k | k in t && k != id :: w.table[k] == t[k]
    ensures id in t && failure.None? ==>
      w.table[id].status == status
      && (w.table[id].errorMessage.Null? <==> message == "")
      && StringOf(w.table[id].errorMessage) == message
      && w.table[id] == t[id].(status := w.table[id].status, errorMessage := w.table[id].errorMessage)
    ensures id !in t || failure.Some? ==> w.table == t
  {
    if failure.None? && id in t then
      Written(t[id := t[id].(status := status, errorMessage := Nullable(message))], None)
    else
      Written(t, failure)
  }

  /** Errors of a single-row query; NoRows is `sql.ErrNoRows`. */
  datatype DbError = NoRows | DbFailure(message: string)

  /** The single-row query over the table, when the database itself does not fail. */
  function LookupRow(t: Table, id: string): (r: Result<Row, DbError>)
    ensures r.Ok? <==> id in t
    ensures r.Ok? ==> r.value == t[id]
    ensures r.Err? ==> r.error == NoRows
  {
    if id in t then Ok(t[id]) else Err(NoRows)
  }

  /** GetPayout: no row is `(nil, nil)`; every other error is passed on. */
  function GetPayout(query: Result<Row, DbError>): (r: Result<Option<Payout>, DbError>)
    ensures r == Ok(None) <==> query == Err(NoRows)
    ensures query.Err? && query.error != NoRows ==> r == Err(query.error)
    ensures query.Ok? ==> r == Ok(Some(DecodeGetRow(query.value)))
    ensures r.Err? ==> r.error != NoRows
  {
    match query
    case Ok(row) => Ok(Some(DecodeGetRow(row)))
    case Err(NoRows) => Ok(None)
    case Err(e) => Err(e)
  }

  /** Reading a payout by id right after saving it gives the saved payout
      back through the single-row mapping. */
  lemma GetAfterSave(t: Table, p: Payout)
    ensures GetPayout(LookupRow(SavePayout(t, p, None).table, p.id))
         == Ok(Some(p.(recipientTag := "", bankName := "", errorMessage := "", createdAt := 0, updatedAt := 0)))
  {
    GetReadBack(p);
  }

  /** Reading an id that has no row is the empty answer, not an error. */
  lemma GetMissing(t: Table, id: string)
    requires id !in t
    ensures GetPayout(LookupRow(t, id)) == Ok(None)
  {
  }

  /** Reading a payout by id after a status write sees the new status; the
      error message is not mapped back. A missing id still reads as nothing. */
  lemma GetAfterUpdate(t: Table, id: string, status: string, message: string)
    ensures var r := GetPayout(LookupRow(UpdatePayoutStatus(t, id, status, message, None).table, id));
      && (id in t ==> r == Ok(Some(DecodeGetRow(t[id]).(status := status))))
      && (id !in t ==> r == Ok(None))
  {
  }

  /** One payout per row, in row order. */
  function DecodeRows(rows: seq<Row>): (ps: seq<Payout>)
    ensures |ps| == |rows|
    ensures forall i | 0 <= i < |rows| :: ps[i] == DecodeListRow(rows[i])
  {
    seq(|rows|, i requires 0 <= i < |rows| => DecodeListRow(rows[i]))
  }

  /** ListPayouts: `limit` is accepted and not used. */
  function ListPayouts(rows: Result<seq<Row>, string>, limit: int): (r: Result<seq<Payout>, string>)
    ensures r.Err? <==> rows.Err?
    ensures rows.Err? ==> r == Err(rows.error)
    // unlike the batch listing, no rows is an empty answer, not an error
    ensures rows.Ok? ==> r.Ok? && |r.value| == |rows.value|
    ensures rows.Ok? ==> forall i | 0 <= i < |rows.value| :: r.value[i] == DecodeListRow(rows.value[i])
  {
    match rows
    case Err(e) => Err(e)
    case Ok(rs) => Ok(DecodeRows(rs))
  }

  lemma ListPayoutsIgnoresLimit(rows: Result<seq<Row>, string>, limit1: int, limit2: int)
    ensures ListPayouts(rows, limit1) == ListPayouts(rows, limit2)
  {
  }

  const NotFound: string := "not found"

  /** ListPayoutsByBatchID: query errors are passed on, an empty answer is the
      error "not found", otherwise one payout per row in row order. */
  function ListPayoutsByBatchID(rows: Result<seq<Row>, string>): (r: Result<seq<Payout>, string>)
    ensures rows.Err? ==> r == Err(rows.error)
    ensures rows.Ok? ==> (r == Err(NotFound) <==> |rows.value| == 0)
    ensures rows.Ok? && |rows.value| > 0 ==> r == Ok(DecodeRows(rows.value))
    ensures r.Ok? ==> |r.value| > 0
  {
    match rows
    case Err(e) => Err(e)
    case Ok(rs) => if |rs| == 0 then Err(NotFound) else Ok(DecodeRows(rs))
  }
}
