/** Wire vocabulary shared by every page of the dashboard: the decoded server
    envelopes, the outbound requests, the result of one handler step, and the
    JavaScript truthiness rules the handlers rely on.

    Numbers of the trading API are JavaScript doubles; they are modelled as
    `real`, so NaN, negative zero and rounding do not arise. */
module Wire {

  datatype Option<+T> = None | Some(value: T) {

    /** The value, or `default` when absent (JavaScript `x ?? default`). */
    function GetOr(default: T): T {
      match this
      case Some(v) => v
      case None => default
    }
  }

  /** `if (x)` on an optional number: absent and zero are both falsy. */
  predicate TruthyNumber(x: Option<real>) {
    x.Some? && x.value != 0.0
  }

  /** `if (x)` on an optional integer field. */
  predicate TruthyInt(x: Option<int>) {
    x.Some? && x.value != 0
  }

  /** `if (x)` on an optional string: absent and the empty string are falsy. */
  predicate TruthyText(x: Option<string>) {
    x.Some? && x.value != ""
  }

  /** JavaScript `x || 0` on an optional number. */
  function OrZero(x: Option<real>): real {
    if TruthyNumber(x) then x.value else 0.0
  }

  /** JavaScript `x || null` on an optional number. */
  function OrNull(x: Option<real>): Option<real> {
    if TruthyNumber(x) then x else None
  }

  predicate StartsWith(s: string, prefix: string) {
    |prefix| <= |s| && s[..|prefix|] == prefix
  }

  /** JavaScript `s.includes(part)`. */
  predicate Contains(s: string, part: string)
    decreases |s|
  {
    StartsWith(s, part) || (|s| > 0 && Contains(s[1..], part))
  }

  // ---------------------------------------------------------------- inbound

  datatype ApiError = ApiError(code: string, message: string)

  datatype AuthorizeInfo = AuthorizeInfo(balance: real, currency: string, loginId: string)

  datatype ActiveSymbol = ActiveSymbol(
    symbol: string,
    displayName: string,
    market: string,
    marketDisplayName: string)

  datatype Tick = Tick(symbol: string, quote: real, epoch: int)

  datatype BalanceInfo = BalanceInfo(balance: real, currency: string)

  datatype SubscriptionInfo = SubscriptionInfo(id: string)

  datatype BuyReceipt = BuyReceipt(
    contractId: int,
    longcode: string,
    startTime: int,
    transactionId: int,
    buyPrice: real,
    payout: real)

  datatype PortfolioContract = PortfolioContract(
    contractId: int,
    currency: string,
    dateStart: int,
    expiryTime: int,
    contractType: string,
    longcode: string,
    payout: real,
    purchaseTime: int,
    symbol: string,
    buyPrice: real)

  /** `portfolio.contracts` may be missing from the response. */
  datatype Portfolio = Portfolio(contracts: Option<seq<PortfolioContract>>)

  /** One row of `profit_table.transactions`; every field may be missing. */
  datatype Transaction = Transaction(
    transactionTime: Option<int>,
    transactionId: Option<int>,
    shortcode: Option<string>,
    buyPrice: Option<real>,
    profit: Option<real>,
    balance: Option<real>)

  datatype ProfitTable = ProfitTable(transactions: seq<Transaction>)

  datatype Limits = Limits(
    dailyWithdrawalLimit: Option<real>,
    withdrawalAvailable: Option<real>,
    turnoverLimit: Option<real>)

  /** A decoded server message. The pages check its top-level keys with
      independent `if`s, so it is a record of optional fields rather than a
      sum type: one envelope may carry several keys. */
  datatype Envelope = Envelope(
    error: Option<ApiError>,
    authorize: Option<AuthorizeInfo>,
    activeSymbols: Option<seq<ActiveSymbol>>,
    tick: Option<Tick>,
    balance: Option<BalanceInfo>,
    subscription: Option<SubscriptionInfo>,
    buy: Option<BuyReceipt>,
    portfolio: Option<Portfolio>,
    profitTable: Option<ProfitTable>,
    getLimits: Option<Limits>)

  /** The envelope with no recognised key. */
  const Blank := Envelope(None, None, None, None, None, None, None, None, None, None)

  function ErrorEnvelope(code: string, message: string): Envelope {
    Blank.(error := Some(ApiError(code, message)))
  }

  function AuthorizeEnvelope(info: AuthorizeInfo): Envelope {
    Blank.(authorize := Some(info))
  }

  function TickEnvelope(symbol: string, quote: real): Envelope {
    Blank.(tick := Some(Tick(symbol, quote, 0)))
  }

  /** The error code the server sends for a second subscription to a stream. */
  const AlreadySubscribed := "AlreadySubscribed"

  // --------------------------------------------------------------- outbound

  datatype ContractType = Call | Put

  datatype BuyParameters = BuyParameters(
    amount: real,
    basis: string,
    contractType: ContractType,
    currency: string,
    duration: real,
    durationUnit: string,
    symbol: string)

  /** Stream names accepted by `forget_all`. */
  const TicksStream := "ticks"
  const BalanceStream := "balance"

  /** An outbound request. `Authorize` carries the page's fixed API token,
      whose value the model does not need. */
  datatype Request =
    | Authorize
    | ActiveSymbols(detail: string, productType: Option<string>)
    | TicksSubscribe(symbol: string)
    | ForgetAll(stream: string)
    | BalanceSubscribe
    | PortfolioRequest
    | ProfitTableRequest(description: int, limit: int)
    | GetLimits
    | Buy(price: real, parameters: BuyParameters)

  /** The outcome of one handler or user action: the page state after the
      queued updates are applied, and the requests sent, in order. */
  datatype Step<S> = Step(state: S, out: seq<Request>)

  /** Envelopes handled one at a time in arrival order: the left fold of a
      page's handler, with the requests concatenated in order. */
  function Fold<S>(handle: (S, Envelope) -> Step<S>, s: S, envs: seq<Envelope>): Step<S>
    decreases |envs|
  {
    if envs == [] then Step(s, [])
    else
      var first := handle(s, envs[0]);
      var rest := Fold(handle, first.state, envs[1..]);
      Step(rest.state, first.out + rest.out)
  }
}
