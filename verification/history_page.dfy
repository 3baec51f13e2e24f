/** The history page: authorize, then `profit_table`, then one display row
    per transaction. */
module HistoryPage {
  import opened Wire

  /** The number of transactions requested. */
  const HistoryLimit := 20

  /** A display cell. Date and currency formatting are not modelled: a cell
      records which value it formats, or that it shows `N/A`. */
  datatype Cell = NotAvailable | LocalTime(epoch: int) | Number(n: int) | Text(text: string) | Dollars(amount: real)

  datatype Row = Row(
    time: Cell,
    id: Cell,
    kind: Cell,
    amount: Cell,
    profit: Cell,
    balance: Cell,
    rawProfit: real)

  datatype State = State(trades: seq<Row>, loading: bool, error: Option<string>)

  const Initial := State([], true, None)

  /** `!== undefined ? $x.toFixed(2) : 'N/A'`. */
  function MoneyCell(x: Option<real>): Cell {
    if x.Some? then Dollars(x.value) else NotAvailable
  }

  /** One row: time and id are shown when truthy, the shortcode when
      non-empty, amounts whenever present; `rawProfit` is `profit || 0`. */
  function MapTransaction(t: Transaction): Row {
    Row(
      if TruthyInt(t.transactionTime) then LocalTime(t.transactionTime.value) else NotAvailable,
      if TruthyInt(t.transactionId) then Number(t.transactionId.value) else NotAvailable,
      if TruthyText(t.shortcode) then Text(t.shortcode.value) else NotAvailable,
      MoneyCell(t.buyPrice),
      MoneyCell(t.profit),
      MoneyCell(t.balance),
      OrZero(t.profit))
  }

  /** `transactions.map(...)`: one row per transaction, in order. */
  function MapTransactions(ts: seq<Transaction>): (r: seq<Row>)
    ensures |r| == |ts|
    ensures forall i | 0 <= i < |r| ::
              && (r[i].time == NotAvailable <==> !TruthyInt(ts[i].transactionTime))
              && (r[i].id == NotAvailable <==> !TruthyInt(ts[i].transactionId))
              && (r[i].kind == NotAvailable <==> !TruthyText(ts[i].shortcode))
              && (TruthyInt(ts[i].transactionTime) ==> r[i].time == LocalTime(ts[i].transactionTime.value))
              && (TruthyInt(ts[i].transactionId) ==> r[i].id == Number(ts[i].transactionId.value))
              && (TruthyText(ts[i].shortcode) ==> r[i].kind == Text(ts[i].shortcode.value))
              && (r[i].amount == NotAvailable <==> ts[i].buyPrice.None?)
              && (r[i].profit == NotAvailable <==> ts[i].profit.None?)
              && (r[i].balance == NotAvailable <==> ts[i].balance.None?)
              && (ts[i].buyPrice.Some? ==> r[i].amount == Dollars(ts[i].buyPrice.value))
              && (ts[i].profit.Some? ==> r[i].profit == Dollars(ts[i].profit.value))
              && (ts[i].balance.Some? ==> r[i].balance == Dollars(ts[i].balance.value))
              && r[i].rawProfit == ts[i].profit.GetOr(0.0)
    decreases |ts|
  {
    if ts == [] then [] else [MapTransaction(ts[0])] + MapTransactions(ts[1..])
  }

  /** `fetchHistory` (also the refresh button and the mount effect). */
  function FetchHistory(s: State): (r: Step<State>)
    ensures r.state.loading && r.state.error == None && r.state.trades == s.trades
    ensures r.out == [Authorize]
  {
    Step(s.(loading := true, error := None), [Authorize])
  }

  /** The message handler. */
  function Handle(s: State, env: Envelope): (r: Step<State>)
    ensures env.error.Some? ==> r == Step(s.(error := Some(env.error.value.message), loading := false), [])
    ensures env.error.None? && env.authorize.Some? ==>
              r.out == [ProfitTableRequest(1, HistoryLimit)]
    ensures env.error.Some? || env.authorize.None? ==> r.out == []
    ensures env.error.None? && env.profitTable.Some? ==>
              r.state == State(MapTransactions(env.profitTable.value.transactions), false, None)
    ensures env.error.None? && env.profitTable.None? ==> r.state == s
  {
    if env.error.Some? then Step(s.(error := Some(env.error.value.message), loading := false), [])
    else
      var out := if env.authorize.Some? then [ProfitTableRequest(1, HistoryLimit)] else [];
      if env.profitTable.Some? then
        Step(State(MapTransactions(env.profitTable.value.transactions), false, None), out)
      else Step(s, out)
  }

  /** A transaction with every field missing shows `N/A` everywhere and a
      zero profit. */
  lemma EmptyTransactionRow()
    ensures MapTransactions([Transaction(None, None, None, None, None, None)])
            == [Row(NotAvailable, NotAvailable, NotAvailable, NotAvailable, NotAvailable, NotAvailable, 0.0)]
  {
  }

  /** The full chain: fetch, the server's authorize, the server's table. */
  lemma FetchChain(s: State, info: AuthorizeInfo, table: ProfitTable)
    ensures var fetch := FetchHistory(s);
            var authorized := Handle(fetch.state, AuthorizeEnvelope(info));
            var listed := Handle(authorized.state, Blank.(profitTable := Some(table)));
            && fetch.out + authorized.out + listed.out == [Authorize, ProfitTableRequest(1, HistoryLimit)]
            && |listed.state.trades| == |table.transactions|
            && !listed.state.loading && listed.state.error == None
  {
  }
}
