/** The transaction history: the empty-list message, one row per transaction
    in the given order, the send/receive sign and colour, and the status badge.
    `type` and `status` are kept as the strings the component compares, so the
    fall-through branches are modelled; the date label comes from the host's
    `Intl.DateTimeFormat` and is not modelled. */
module TransactionList {
  import opened Common

  datatype Transaction = Transaction(id: string, kind: string, token: string, amount: real, status: string)

  datatype Arrow = Up | Down

  /** The colour of the status pill. */
  datatype Badge = GreenBadge | YellowBadge | RedBadge

  /** The rule-selected parts of one row. */
  datatype Row = Row(
    key: string,        // React key, the transaction id
    tone: Tone,         // icon circle and amount colour
    arrow: Arrow,
    sign: string,       // "-" or "+" before the amount
    amount: real,
    amountDigits: Digits,
    token: string,      // symbol printed after the amount
    status: string,
    badge: Badge)

  datatype ListView = NoTransactionsYet | Rows(rows: seq<Row>)

  /** Green for "completed", yellow for "pending", red for anything else. */
  function StatusBadge(status: string): (b: Badge)
    ensures b == GreenBadge <==> status == "completed"
    ensures b == YellowBadge <==> status == "pending"
    ensures b == RedBadge <==> status != "completed" && status != "pending"
  {
    if status == "completed" then GreenBadge
    else if status == "pending" then YellowBadge
    else RedBadge
  }

  function TxRow(tx: Transaction): (row: Row)
    ensures row.key == tx.id && row.amount == tx.amount && row.token == tx.token && row.status == tx.status
    ensures row.amountDigits == Fixed(4)
    ensures tx.kind == "send" <==> row.sign == "-"
    ensures tx.kind == "send" ==> row.tone == Loss && row.arrow == Up
    ensures tx.kind != "send" ==> row.sign == "+" && row.tone == Gain && row.arrow == Down
    ensures row.badge == StatusBadge(tx.status)
  {
    var send := tx.kind == "send";
    Row(tx.id,
        if send then Loss else Gain,
        if send then Up else Down,
        if send then "-" else "+",
        tx.amount, Fixed(4), tx.token, tx.status, StatusBadge(tx.status))
  }

  /** `transactions.map(...)`. */
  function TxRows(txs: seq<Transaction>): (rows: seq<Row>)
    ensures |rows| == |txs|
    ensures forall i :: 0 <= i < |txs| ==> rows[i] == TxRow(txs[i])
  {
    if txs == [] then [] else [TxRow(txs[0])] + TxRows(txs[1..])
  }

  function Render(txs: seq<Transaction>): (v: ListView)
    ensures v.NoTransactionsYet? <==> |txs| == 0
    ensures v.Rows? ==> |v.rows| == |txs| && forall i :: 0 <= i < |txs| ==> v.rows[i] == TxRow(txs[i])
    ensures v.Rows? ==> forall i :: 0 <= i < |txs| ==> v.rows[i].key == txs[i].id
  {
    if |txs| == 0 then NoTransactionsYet else Rows(TxRows(txs))
  }

  /** Rendering distributes over concatenation: the rows of a longer history
      are the rows of its parts, in the same order. */
  lemma RowsOfConcat(a: seq<Transaction>, b: seq<Transaction>)
    ensures TxRows(a + b) == TxRows(a) + TxRows(b)
  {
  }

  /** Sign, colour and arrow are decided by the same test: exactly the rows of
      send transactions carry `-`, red and the up arrow. */
  lemma SendRowsAgree(tx: Transaction)
    ensures TxRow(tx).sign == "-" <==> TxRow(tx).tone == Loss
    ensures TxRow(tx).tone == Loss <==> TxRow(tx).arrow == Up
    ensures TxRow(tx).arrow == Up <==> tx.kind == "send"
  {
  }
}
