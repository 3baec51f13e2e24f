/** The market view: the server's symbol list, the latest quote per symbol,
    a single selected market with its own tick stream, and show-more /
    show-less pagination of the list. */
module MarketView {
  import opened Wire
  import opened Subscriptions

  const InitialMarketCount: nat := 6
  const MarketsIncrement: nat := 6

  datatype State = State(
    markets: seq<ActiveSymbol>,
    selected: Option<string>,
    tickData: map<string, real>,
    error: Option<string>,
    visible: nat,
    showAll: bool)

  const Initial := State([], None, map[], None, InitialMarketCount, false)

  /** Requests sent when the view mounts: authorize, then the brief symbol list. */
  function Mount(): seq<Request> {
    [Authorize, ActiveSymbols("brief", None)]
  }

  /** How many of `error`, `markets` and `tickData` differ between two states. */
  function ChangedSlices(s: State, t: State): nat {
    (if s.error != t.error then 1 else 0) +
    (if s.markets != t.markets then 1 else 0) +
    (if s.tickData != t.tickData then 1 else 0)
  }

  /** The message handler: `error`, `active_symbols` and `tick` form an
      else-if chain, so at most one of them is applied. */
  function Handle(s: State, env: Envelope): (r: Step<State>)
    ensures r.out == []
    ensures ChangedSlices(s, r.state) <= 1
    ensures r.state == s.(error := r.state.error, markets := r.state.markets, tickData := r.state.tickData)
    ensures env.error.Some? ==> r.state == s.(error := Some(env.error.value.message))
    ensures env.error.None? && env.activeSymbols.Some? ==> r.state == s.(markets := env.activeSymbols.value)
    ensures env.error.None? && env.activeSymbols.None? && env.tick.Some? ==>
              r.state == s.(tickData := r.state.tickData)
    ensures env.error.None? && env.activeSymbols.Some? ==> r.state.markets == env.activeSymbols.value
    ensures env.error.None? && env.activeSymbols.None? && env.tick.Some? ==>
              && env.tick.value.symbol in r.state.tickData
              && r.state.tickData[env.tick.value.symbol] == env.tick.value.quote
              && forall x | x != env.tick.value.symbol ::
                   (x in r.state.tickData <==> x in s.tickData) &&
                   (x in s.tickData ==> r.state.tickData[x] == s.tickData[x])
    ensures env.error.None? && env.activeSymbols.None? && env.tick.None? ==> r.state == s
  {
    if env.error.Some? then Step(s.(error := Some(env.error.value.message)), [])
    else if env.activeSymbols.Some? then Step(s.(markets := env.activeSymbols.value), [])
    else if env.tick.Some? then
      Step(s.(tickData := s.tickData[env.tick.value.symbol := env.tick.value.quote]), [])
    else Step(s, [])
  }

  /** `handleMarketSelection`: the selected market becomes the only tick
      stream, whatever was streaming before. */
  function SelectMarket(s: State, symbol: string): (r: Step<State>)
    ensures r.state == s.(selected := Some(symbol))
    ensures |r.out| == 2 && r.out[0] == ForgetAll(TicksStream) && r.out[1] == TicksSubscribe(symbol)
    ensures forall open: set<string> :: Streaming(open, r.out) == {symbol}
    ensures forall open: set<string> :: NoDuplicateSubscribe(open, r.out)
  {
    var out := [ForgetAll(TicksStream), TicksSubscribe(symbol)];
    assert forall open: set<string> :: Streaming(open, out) == {symbol} && NoDuplicateSubscribe(open, out) by {
      forall open: set<string> ensures Streaming(open, out) == {symbol} && NoDuplicateSubscribe(open, out) {
        ForgetThenSubscribe(open, symbol);
      }
    }
    Step(s.(selected := Some(symbol)), out)
  }

  /** `handleShowMore`: collapse back to six, or grow by six capped at the
      number of markets; the mode flips either way. */
  function ShowMore(s: State): (r: State)
    ensures r == s.(visible := r.visible, showAll := r.showAll)
    ensures r.showAll == !s.showAll
    ensures s.showAll ==> r.visible == InitialMarketCount
    ensures !s.showAll ==> r.visible <= s.visible + MarketsIncrement && r.visible <= |s.markets|
    ensures !s.showAll ==> r.visible == s.visible + MarketsIncrement || r.visible == |s.markets|
  {
    if s.showAll then s.(visible := InitialMarketCount, showAll := false)
    else
      var grown := s.visible + MarketsIncrement;
      s.(visible := if grown < |s.markets| then grown else |s.markets|, showAll := true)
  }

  /** `markets.slice(0, visibleMarkets)`. */
  function VisibleList(s: State): (r: seq<ActiveSymbol>)
    ensures r <= s.markets
    ensures |r| == if s.visible < |s.markets| then s.visible else |s.markets|
  {
    if s.visible < |s.markets| then s.markets[..s.visible] else s.markets
  }

  /** The show-more button is offered only with more than six markets. */
  predicate ShowsToggle(s: State) {
    |s.markets| > InitialMarketCount
  }

  // ================================================================ lemmas

  /** The pagination states the view can reach: collapsed at six, or
      expanded to at most twelve. */
  predicate Paginated(s: State) {
    (!s.showAll ==> s.visible == InitialMarketCount) &&
    (s.showAll ==> s.visible <= InitialMarketCount + MarketsIncrement)
  }

  lemma InitialPaginated()
    ensures Paginated(Initial)
  {
  }

  /** Every handler step and user action keeps the pagination reachable. */
  lemma PaginationPreserved(s: State, env: Envelope, symbol: string)
    requires Paginated(s)
    ensures Paginated(ShowMore(s))
    ensures Paginated(Handle(s, env).state)
    ensures Paginated(SelectMarket(s, symbol).state)
  {
  }

  /** Hence the list never shows more than twelve markets, however many the
      server sends. */
  lemma AtMostTwelveVisible(s: State)
    requires Paginated(s)
    ensures |VisibleList(s)| <= InitialMarketCount + MarketsIncrement
  {
  }

  /** Show-more then show-less returns to the state it started from. */
  lemma ShowMoreRoundTrip(s: State)
    requires Paginated(s)
    ensures !s.showAll ==> ShowMore(ShowMore(s)) == s
  {
  }

  /** Mounting, then the server's symbol list: every market is kept, in the
      server's order, and the first six are listed. */
  lemma MountSession(symbols: seq<ActiveSymbol>)
    ensures Mount() == [Authorize, ActiveSymbols("brief", None)]
    ensures var r := Handle(Initial, Blank.(activeSymbols := Some(symbols)));
            && r.state.markets == symbols
            && VisibleList(r.state) == if |symbols| <= InitialMarketCount then symbols else symbols[..InitialMarketCount]
  {
  }

  /** With more than six markets, expanding from the collapsed view shows
      strictly more of them. */
  lemma ShowMoreGrows(s: State)
    requires Paginated(s) && !s.showAll && ShowsToggle(s)
    ensures |VisibleList(ShowMore(s))| > |VisibleList(s)|
  {
  }
}
