/** The price card: the change since the previous quote, its colour and the
    direction arrow, and the props the trade page passes in for a symbol. */
module PriceCard {
  import opened Wire
  import TradePage

  datatype Arrow = NoArrow | ArrowUp | ArrowDown

  datatype Colour = Green | Red

  /** `previousPrice ? price - previousPrice : 0`: a missing or zero previous
      price means no change. */
  function PriceChange(price: real, previous: Option<real>): (change: real)
    ensures !TruthyNumber(previous) ==> change == 0.0
    ensures TruthyNumber(previous) ==> change + previous.value == price
  {
    if TruthyNumber(previous) then price - previous.value else 0.0
  }

  /** `isPositive` colouring: a zero change counts as positive. */
  function ChangeColour(price: real, previous: Option<real>): (c: Colour)
    ensures c == Green <==> !TruthyNumber(previous) || price >= previous.value
  {
    if PriceChange(price, previous) >= 0.0 then Green else Red
  }

  /** The arrow is drawn only for a non-zero change, up when it is positive. */
  function ChangeArrow(price: real, previous: Option<real>): (a: Arrow)
    ensures a == ArrowUp <==> TruthyNumber(previous) && price > previous.value
    ensures a == ArrowDown <==> TruthyNumber(previous) && price < previous.value
    ensures a == NoArrow <==> !TruthyNumber(previous) || price == previous.value
  {
    var change := PriceChange(price, previous);
    if change == 0.0 then NoArrow
    else if change >= 0.0 then ArrowUp
    else ArrowDown
  }

  /** The card's `price` and `previousPrice` props for a symbol:
      `current || 0` and `previous || undefined`. */
  function CardInputs(prices: map<string, TradePage.PriceData>, symbol: string): (real, Option<real>) {
    if symbol in prices then (OrZero(Some(prices[symbol].current)), OrNull(prices[symbol].previous))
    else (0.0, None)
  }

  /** After two truthy quotes for a symbol, its card points up exactly when
      the second is higher and down exactly when it is lower. */
  lemma ArrowFollowsLastTwoTicks(s: TradePage.State, symbol: string, q1: real, q2: real)
    requires q1 != 0.0 && q2 != 0.0
    ensures var prices := TradePage.Run(s, [TickEnvelope(symbol, q1), TickEnvelope(symbol, q2)]).state.prices;
            var (price, previous) := CardInputs(prices, symbol);
            && (ChangeArrow(price, previous) == ArrowUp <==> q2 > q1)
            && (ChangeArrow(price, previous) == ArrowDown <==> q2 < q1)
            && (ChangeColour(price, previous) == Green <==> q2 >= q1)
  {
    TradePage.TickRun(s, symbol, [q1, q2]);
    var envs := [TickEnvelope(symbol, q1), TickEnvelope(symbol, q2)];
    var quotes := [q1, q2];
    assert envs == seq(|quotes|, i requires 0 <= i < |quotes| => TickEnvelope(symbol, quotes[i]));
  }

  /** A symbol with only one quote so far shows no arrow and green. */
  lemma FirstTickShowsNoArrow(symbol: string, q: real)
    requires q != 0.0
    ensures var prices := TradePage.Handle(TradePage.Initial, TickEnvelope(symbol, q)).state.prices;
            var (price, previous) := CardInputs(prices, symbol);
            price == q && ChangeArrow(price, previous) == NoArrow && ChangeColour(price, previous) == Green
  {
  }
}
