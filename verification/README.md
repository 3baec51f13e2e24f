# Trading dashboard: WebSocket message handling, in Dafny

This project models the client side of a browser trading dashboard. Each page talks to a trading API over its own WebSocket. The model covers the state machine each page runs over that socket. Every page is a pure step function `Handle(state, envelope): Step(state', out)`, where `out` holds the requests the page sends, in order. User actions (fetch, select, trade, show more) are steps of the same shape.

- `wire.dfy` (module `Wire`): decoded envelopes, outbound requests, the `Step` result and `Fold`, which handles envelopes one at a time in arrival order. Each page's `Run` is `Fold` of its own `Handle`. An envelope is a record of optional fields, because the pages check its keys with independent `if`s. It also holds the JavaScript truthiness helpers: `0`, `""` and a missing value are falsy.
- `subscriptions.dfy` (module `Subscriptions`): the server's side of the streams, computed from the outbound requests alone. Every subscribe and cancel is checked against it. `Streaming` folds `ticks`+`subscribe` and `forget_all` over a request log. `NoDuplicateSubscribe` says that no subscribe asks for a stream that is already open.
- `trade_page.dfy`: the tick-subscription set, prices, the symbol filter and trade placement. While one envelope is handled, every check reads the state as it was when the envelope arrived. The queued state updates are applied afterwards, in order. This is how React state setters behave.
- `price_card.dfy`: the price change, its colour and arrow, and the props the trade page passes to each card.
- `profile_page.dfy`: the balance subscription, its `isSubscribed` flag and the error screen.
- `market_view.dfy`: the symbol list, the quote per symbol, market selection and pagination.
- `orders_page.dfy`, `history_page.dfy`, `account_limits_page.dfy`: each runs authorize, then one follow-up request, then maps the response.
- `home_page.dfy`: the balance taken from `authorize`.

Numbers are `real`. The `* 0.95` of the profile page is an exact product. The API token is a fixed constant, so `Authorize` does not carry it.

## Model

| member | source | states |
|---|---|---|
| TradePage.SyntheticOnly | src/pages/TradePage.tsx:89-90 | Keeps only synthetic-index symbols, in the server's order, and every synthetic symbol appears in the result. |
| TradePage.SyntheticOnlyCounts | src/pages/TradePage.tsx:89-90 | The filter keeps repeats. Each synthetic symbol occurs as many times as the server lists it, and no other symbol occurs. |
| TradePage.ChooseSymbols | src/pages/TradePage.tsx:89-92 | A prefix of the filtered list: all of it when it has 20 or fewer entries, otherwise its first 20. All synthetic, and in the server's order. |
| TradePage.UnsubscribeFromTicks | src/pages/TradePage.tsx:28-35 | With no subscriptions nothing changes and nothing is sent. Otherwise exactly one `forget_all:'ticks'` is sent and the set is emptied. Either way no tick stream is left open. |
| TradePage.SubscribeToSymbol | src/pages/TradePage.tsx:55-63 | A `ticks`+`subscribe` is sent only for a symbol not in the set, and the symbol is then in the set. The set equals the open streams, and the request is never a duplicate. |
| TradePage.SubscribeRequests | src/pages/TradePage.tsx:94-97 | The batch sends only subscribes. A symbol gets at least one subscribe exactly when it is kept and was not in the set when the envelope arrived. |
| TradePage.SubscribeRequestsCounts | src/pages/TradePage.tsx:94-97 | One subscribe per occurrence: a kept name missing from the snapshot is subscribed as many times as it is listed. A name the snapshot holds gets none. |
| TradePage.OnActiveSymbols | src/pages/TradePage.tsx:85-98 | Sends at most one `forget_all`, first, and exactly when the page held subscriptions. Every other request is a tick subscribe. Only the symbol list and the subscription set change. |
| TradePage.ApplyTick | src/pages/TradePage.tsx:100-111 | A zero quote changes nothing. Otherwise `current` becomes the quote and `previous` becomes the prior `current`, or null when there was none or it was zero. Every other symbol is unchanged. |
| TradePage.Handle | src/pages/TradePage.tsx:66-117 | `AlreadySubscribed` changes nothing. Any other error sets the message, sends nothing and runs no other branch. `authorize` sets the authorized flag and clears the error. `buy` replaces the current trade. Ticks go through `ApplyTick`. The selection is never touched. |
| TradePage.HandleTrade | src/pages/TradePage.tsx:119-137 | Nothing is sent without a truthy selected symbol. Otherwise exactly one `buy` is sent: price equal to the amount, basis `stake`, currency `USD`, duration unit `m`, and the selected symbol. |
| TradePage.HandleSymbolSelect | src/pages/TradePage.tsx:139-141 | Sets the selection to the clicked symbol and changes nothing else. |
| TradePage.SelectThenTrade | src/pages/TradePage.tsx:119-141 | Selecting a non-empty symbol and then trading sends one stake `buy` for that symbol. |
| TradePage.HandleKeepsRegistry | src/pages/TradePage.tsx:85-98 | After any envelope, the page's subscription set equals the tick streams its requests leave open on the server. |
| TradePage.HandleNoDuplicate | src/pages/TradePage.tsx:55-63 | No envelope sends a subscribe for an already open stream, provided the kept symbols are distinct. |
| TradePage.RunKeepsRegistry | src/pages/TradePage.tsx:66-117 | Over any sequence of envelopes the set stays equal to the open streams. When every kept symbol list is distinct, no stream is ever requested twice. |
| TradePage.ResubscribeDropsKnownSymbols | src/pages/TradePage.tsx:85-98 | As written: a kept symbol that was already subscribed gets a `forget_all` and no new subscribe. It ends neither streamed nor in the set. |
| TradePage.ResubscribeExample | src/pages/TradePage.tsx:85-98 | Concrete case: `R_100` subscribed, and the list `[R_100]` arrives. Only `forget_all` is sent and the set ends empty. |
| TradePage.RepeatedSymbolSubscribesTwice | src/pages/TradePage.tsx:94-97 | As written: a list that repeats a new symbol sends two subscribes for it, and the second is a duplicate. |
| TradePage.SubscribeEach | src/pages/TradePage.tsx:55-63 | Corrected batch: each check reads the updated set. The set ends as the old set plus exactly the names. It equals the open streams, and no subscribe is a duplicate. |
| TradePage.OnActiveSymbolsIntended | src/pages/TradePage.tsx:85-98 | Corrected branch: a single `forget_all` comes first exactly when the page held subscriptions, and every other request is a tick subscribe. The set then holds exactly the kept symbols and equals the open streams. No subscribe is a duplicate. |
| TradePage.ThreeTicks | src/pages/TradePage.tsx:100-111 | After truthy quotes q1, q2, q3 for one symbol, the price is `{current: q3, previous: q2}`. |
| TradePage.TickRun | src/pages/TradePage.tsx:100-111 | After any run of two or more truthy quotes for one symbol, `current` is the last quote and `previous` is the one before it. |
| TradePage.TickExample | src/pages/TradePage.tsx:100-111 | Quotes 100.50 then 101.20 for `R_100` give `{current: 101.20, previous: 100.50}`. |
| TradePage.MountSession | src/pages/TradePage.tsx:38-46 | Mount sends `authorize`, then `active_symbols:'brief'` with `product_type:'basic'`. After `authorize` and the symbol list, the page is authorized, shows the kept symbols and holds exactly them. No `forget_all` is sent. When the kept symbols are distinct, no subscribe is a duplicate. |
| PriceCard.PriceChange | src/components/PriceCard.tsx:12 | With no previous price, or a zero one, the change is 0. Otherwise change plus previous equals price. |
| PriceCard.ChangeColour | src/components/PriceCard.tsx:13-22 | Green exactly when there is no truthy previous price or the price has not fallen. A zero change counts as green. |
| PriceCard.ChangeArrow | src/components/PriceCard.tsx:23-25 | Up arrow iff the price rose from a truthy previous price. Down arrow iff it fell. No arrow otherwise. |
| PriceCard.ArrowFollowsLastTwoTicks | src/pages/TradePage.tsx:157-158 | After two truthy quotes, the symbol's card points up iff the second is higher and down iff it is lower. It is green iff the second is not lower. |
| PriceCard.FirstTickShowsNoArrow | src/pages/TradePage.tsx:157-158 | After a symbol's first quote, the card shows that quote, green, with no arrow. |
| ProfilePage.CleanupSubscriptions | src/pages/ProfilePage.tsx:33-38 | Sends one `forget_all:'balance'` and clears the flag. The balance stream is then closed. |
| ProfilePage.FetchBalance | src/pages/ProfilePage.tsx:40-49 | Sets loading, clears the error, clears the flag, then sends `forget_all:'balance'` before `authorize`. The stream is closed afterwards. |
| ProfilePage.SubscribeToBalance | src/pages/ProfilePage.tsx:52-59 | Sends one `balance`+`subscribe` exactly when the page is not subscribed. That request opens the stream. |
| ProfilePage.Handle | src/pages/ProfilePage.tsx:75-125 | `AlreadySubscribed` clears the error, ends loading and marks the page subscribed. Any other error sets the message, ends loading and stops. `authorize` sets the balance and requests a subscription unless already subscribed. `balance` with `subscription` marks the page subscribed. Every `balance` overwrites the display and clears the error. |
| ProfilePage.ErrorScreenAfterError | src/pages/ProfilePage.tsx:127 | After an error envelope, the error screen shows iff the code is not `AlreadySubscribed` and the message is non-empty and does not contain `AlreadySubscribed`. |
| ProfilePage.SubscribedIsSticky | src/pages/ProfilePage.tsx:104-111 | Once subscribed, no sequence of envelopes clears the flag or sends any request. |
| ProfilePage.Mount | src/pages/ProfilePage.tsx:61-73 | Mount starts loading with no balance and no error. It sends `forget_all:'balance'`, then `authorize`, and leaves the balance stream closed. |
| ProfilePage.MountSession | src/pages/ProfilePage.tsx:61-73 | Mount, the server's `authorize`, then its first balance update: the page sends `forget_all`, `authorize`, then one `balance`+`subscribe`, which opens the stream. The flag stays clear until the update carrying the subscription id sets it, and each reply's balance is shown. |
| ProfilePage.FetchThenAuthorize | src/pages/ProfilePage.tsx:92-107 | `fetchBalance` followed by `authorize` sends `forget_all`, `authorize`, then `balance`+`subscribe`. This leaves the stream open, the balance shown and no error screen. |
| MarketView.MountSession | src/components/MarketView.tsx:27-33 | Mount sends `authorize`, then `active_symbols:'brief'`. The list that comes back is kept whole, and its first six entries are shown. |
| MarketView.Handle | src/components/MarketView.tsx:35-51 | Nothing is sent. The else-if chain applies one branch: an error sets only `error`, else a symbol list sets only `markets`, else a tick sets only its own symbol's quote in `tickData`. |
| MarketView.SelectMarket | src/components/MarketView.tsx:53-63 | Sends `forget_all:'ticks'`, then one subscribe for the symbol, and selects it. Afterwards exactly that stream is open, whatever was open before, and the subscribe is never a duplicate. |
| MarketView.ShowMore | src/components/MarketView.tsx:65-72 | From collapsed, `visible` becomes min(visible+6, markets.length). From expanded it becomes 6. The mode flips either way. |
| MarketView.VisibleList | src/components/MarketView.tsx:74 | The visible list is a prefix of the markets, of length min(visible, markets.length). |
| MarketView.InitialPaginated | src/components/MarketView.tsx:22-23 | The view starts collapsed at six. |
| MarketView.PaginationPreserved | src/components/MarketView.tsx:65-72 | Every step keeps the view either collapsed at six or expanded to at most twelve. |
| MarketView.AtMostTwelveVisible | src/components/MarketView.tsx:65-74 | Hence at most twelve markets are ever listed. |
| MarketView.ShowMoreRoundTrip | src/components/MarketView.tsx:65-72 | Show-more then show-less from the collapsed view returns to the same state. |
| MarketView.ShowMoreGrows | src/components/MarketView.tsx:130 | When the toggle is offered (more than six markets), expanding lists strictly more markets. |
| OrdersPage.MapContracts | src/pages/OrdersPage.tsx:18-28 | Same length and order. Each contract is `open`, with `date_start` = purchase time, `date_expiry` = expiry time, `display_name` = longcode, `underlying_symbol` = symbol, and id, type, price and payout copied. |
| OrdersPage.MapContractsAppend | src/pages/OrdersPage.tsx:70-71 | Mapping a concatenation equals concatenating the mappings. |
| OrdersPage.FetchContracts | src/pages/OrdersPage.tsx:30-37 | Sets loading, clears the error and sends `authorize`. |
| OrdersPage.Handle | src/pages/OrdersPage.tsx:47-75 | An error sets the message, ends loading and suppresses the rest. `authorize` sends exactly one `portfolio`. `portfolio` sets the mapped contracts (empty when missing) and ends loading. |
| OrdersPage.FetchChain | src/pages/OrdersPage.tsx:30-74 | Fetch, `authorize`, `portfolio` sends `[authorize, portfolio]` and ends ready with the mapped contracts and no error. |
| HistoryPage.MapTransactions | src/pages/HistoryPage.tsx:62-72 | One row per transaction, in order. A cell is `N/A` exactly when its field is missing: time and id also when zero, type also when empty. Otherwise the cell shows that field's value. `rawProfit` is the profit, or 0 when missing. |
| HistoryPage.FetchHistory | src/pages/HistoryPage.tsx:26-32 | Sets loading, clears the error and sends `authorize`. |
| HistoryPage.Handle | src/pages/HistoryPage.tsx:42-77 | An error sets the message, ends loading and stops. `authorize` sends one `profit_table` with `description 1` and `limit 20`. `profit_table` sets the rows, ends loading and clears the error. |
| HistoryPage.EmptyTransactionRow | src/pages/HistoryPage.tsx:62-71 | A transaction with no fields maps to all `N/A` and a zero profit. |
| HistoryPage.FetchChain | src/pages/HistoryPage.tsx:26-76 | Fetch, `authorize`, `profit_table` sends `[authorize, profit_table]` and ends ready with one row per transaction. |
| AccountLimitsPage.FetchLimits | src/pages/AccountLimitsPage.tsx:21-27 | Sets loading, clears the error and sends `authorize`. |
| AccountLimitsPage.Handle | src/pages/AccountLimitsPage.tsx:33-60 | An error sets the message, ends loading and returns early. `authorize` sends one `get_limits`. `get_limits` sets each limit to the server value or 0 when missing, ends loading and clears the error. |
| AccountLimitsPage.FetchChain | src/pages/AccountLimitsPage.tsx:21-59 | Fetch, `authorize`, `get_limits` sends `[authorize, get_limits]` and ends with the defaulted limits. |
| HomePage.Handle | src/pages/HomePage.tsx:31-40 | Nothing is sent. `authorize` sets the balance and the currency. Every other envelope, errors included, leaves the state unchanged. |
| HomePage.LastAuthorizeWins | src/pages/HomePage.tsx:36-39 | Over any sequence of envelopes the page sends nothing. The state comes from the last envelope carrying `authorize`, whatever follows it, or is unchanged when there was none. |
| HomePage.MountSession | src/pages/HomePage.tsx:13-28 | The page starts with no balance in `USD`. Mount sends exactly one `authorize`, and its reply sets the balance. |

## Findings

| source | as written | input that shows it | evidently intended | confidence | as-written member | corrected member |
|---|---|---|---|---|---|---|
| src/pages/TradePage.tsx:85-98 | `forget_all` cancels every tick stream. Then each kept symbol is checked against the subscription set as it was at render time, so symbols the page already held are never re-subscribed. | subscribed = {`R_100`}, then `active_symbols` = [`R_100` (synthetic_index)]: the page sends only `forget_all`, and `R_100` stays listed with no quotes | after the cancel, every kept symbol is subscribed again | medium, not executed | TradePage.ResubscribeDropsKnownSymbols | TradePage.OnActiveSymbolsIntended |

`TradePage.Handle` keeps the code's behaviour, so that every other trade-page property describes the code as written. The corrected branch is proved on its own: every kept symbol is streamed exactly once, the set matches the open streams, and the cancel comes first. It needs no distinctness assumption.

## Left out

- The socket itself, `sendMessage` delivery, and the reconnect policy (src/pages/ProfilePage.tsx:27-30) belong to the WebSocket library. Sending is modelled as appending to the step's `out`.
- `JSON.parse`: the model starts from decoded envelopes. A malformed frame would throw inside the library callback.
- Each page's WebSocket is separate, so each page's request log is modelled on its own.
- Formatting is not modelled: `toFixed`, `toLocaleString` and `new Date`. History cells record the value they format (`Dollars`, `LocalTime`, `Number`, `Text`) or `NotAvailable`.
- Floating point: numbers are exact `real`s, so NaN, negative zero and the rounding of `* 0.95` do not arise.
- An error without a `message` (which would store `undefined`) is not modelled. `ApiError.message` is always a string.
- `profit_table.transactions` is required. A response without it would throw in the source.
- Each transaction field is either absent or a value. A `buy_price`, `profit` or `balance` that is present but JSON `null` passes the `!== undefined` test and would throw in `toFixed`. That case is not modelled.
- Logging (`console.log`) is not modelled.
- Identity-service calls are not modelled: `getUser` in the profile and home pages, settings, login and session routing.
- Unmount cleanups are not modelled, as effect scheduling is out of scope. For the record: the trade page's cleanup closes over the first render's empty set, so it never sends `forget_all`. The market view has no cleanup at all.
- Rendering is not modelled, apart from the error-screen guard, the card props, the visible list and the toggle condition.
- Trades are matched to `buy` responses by shape only. `currentTrade` is simply the latest `buy`, so the model assumes at most one trade in flight.
- TradePage.HandleNoDuplicate: assumes the kept symbols are distinct. As written, a list that repeats a new symbol sends two subscribes for it (`TradePage.RepeatedSymbolSubscribesTwice`).
- TradePage.RunKeepsRegistry: its no-duplicate half holds only when every kept symbol list in the run is distinct. The registry half holds for every run.
