/** The orders page: authorize, then `portfolio`, then the open contracts
    mapped for display. */
module OrdersPage {
  import opened Wire

  datatype Status = Won | Lost | Open

  datatype Contract = Contract(
    contractId: int,
    contractType: string,
    dateStart: int,
    dateExpiry: int,
    displayName: string,
    buyPrice: real,
    payout: real,
    status: Status,
    underlyingSymbol: string)

  datatype State = State(contracts: seq<Contract>, loading: bool, error: Option<string>)

  const Initial := State([], true, None)

  /** `mapPortfolioContractToContract`: portfolio contracts are always open. */
  function MapContract(pc: PortfolioContract): Contract {
    Contract(pc.contractId, pc.contractType, pc.purchaseTime, pc.expiryTime, pc.longcode,
             pc.buyPrice, pc.payout, Open, pc.symbol)
  }

  /** `contracts.map(mapPortfolioContractToContract)`. */
  function MapContracts(pcs: seq<PortfolioContract>): (r: seq<Contract>)
    ensures |r| == |pcs|
    ensures forall i | 0 <= i < |r| ::
              && r[i].status == Open
              && r[i].contractId == pcs[i].contractId
              && r[i].contractType == pcs[i].contractType
              && r[i].dateStart == pcs[i].purchaseTime
              && r[i].dateExpiry == pcs[i].expiryTime
              && r[i].displayName == pcs[i].longcode
              && r[i].buyPrice == pcs[i].buyPrice
              && r[i].payout == pcs[i].payout
              && r[i].underlyingSymbol == pcs[i].symbol
    decreases |pcs|
  {
    if pcs == [] then [] else [MapContract(pcs[0])] + MapContracts(pcs[1..])
  }

  /** Mapping commutes with concatenation: order is preserved piecewise. It
      follows from the element-wise contract of `MapContracts`. */
  lemma MapContractsAppend(a: seq<PortfolioContract>, b: seq<PortfolioContract>)
    ensures MapContracts(a + b) == MapContracts(a) + MapContracts(b)
  {
  }

  /** `fetchContracts` (also the refresh button and the mount effect). */
  function FetchContracts(s: State): (r: Step<State>)
    ensures r.state.loading && r.state.error == None && r.state.contracts == s.contracts
    ensures r.out == [Authorize]
  {
    Step(s.(loading := true, error := None), [Authorize])
  }

  /** The message handler. */
  function Handle(s: State, env: Envelope): (r: Step<State>)
    ensures env.error.Some? ==> r == Step(s.(error := Some(env.error.value.message), loading := false), [])
    ensures env.error.None? && env.authorize.Some? ==> r.out == [PortfolioRequest]
    ensures env.error.Some? || env.authorize.None? ==> r.out == []
    ensures env.error.None? && env.portfolio.Some? ==>
              && r.state.contracts == MapContracts(env.portfolio.value.contracts.GetOr([]))
              && !r.state.loading
              && r.state.error == s.error
    ensures env.error.None? && env.portfolio.None? ==> r.state == s
  {
    if env.error.Some? then Step(s.(error := Some(env.error.value.message), loading := false), [])
    else
      var out := if env.authorize.Some? then [PortfolioRequest] else [];
      if env.portfolio.Some? then
        var contracts := if env.portfolio.value.contracts.Some? then env.portfolio.value.contracts.value else [];
        Step(s.(contracts := MapContracts(contracts), loading := false), out)
      else Step(s, out)
  }

  /** The full chain: fetch, the server's authorize, the server's portfolio. */
  lemma FetchChain(s: State, info: AuthorizeInfo, portfolio: Portfolio)
    ensures var fetch := FetchContracts(s);
            var authorized := Handle(fetch.state, AuthorizeEnvelope(info));
            var listed := Handle(authorized.state, Blank.(portfolio := Some(portfolio)));
            && fetch.out + authorized.out + listed.out == [Authorize, PortfolioRequest]
            && listed.state == State(MapContracts(portfolio.contracts.GetOr([])), false, None)
  {
  }
}
