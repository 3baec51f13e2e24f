/** The trade page: tick subscriptions with duplicate suppression, a
    `{current, previous}` price per symbol, the synthetic-index symbol filter,
    and trade placement.

    React state setters queue their updates: while one envelope is handled,
    every check reads the state as it was when the envelope arrived, and the
    queued updates are applied afterwards, in order. */
module TradePage {
  import opened Wire
  import opened Subscriptions

  const SyntheticIndex := "synthetic_index"
  const MaxSymbols := 20

  datatype PriceData = PriceData(current: real, previous: Option<real>)

  datatype State = State(
    activeSymbols: seq<ActiveSymbol>,
    prices: map<string, PriceData>,
    selected: Option<string>,
    authorized: bool,
    currentTrade: Option<BuyReceipt>,
    error: Option<string>,
    subscribed: set<string>)

  const Initial := State([], map[], None, false, None, None, {})

  /** Requests sent when the page mounts. */
  function Mount(): seq<Request> {
    [Authorize, ActiveSymbols("brief", Some("basic"))]
  }

  // ------------------------------------------------------ symbol selection

  /** `a` occurs in `b` in the same order, possibly with gaps. */
  predicate Subsequence<T(==)>(a: seq<T>, b: seq<T>)
    decreases |b|
  {
    a == [] || (b != [] && if a[0] == b[0] then Subsequence(a[1..], b[1..]) else Subsequence(a, b[1..]))
  }

  lemma {:induction false} PrefixOfSubsequence<T>(a: seq<T>, b: seq<T>, n: nat)
    requires n <= |a|
    requires Subsequence(a, b)
    ensures Subsequence(a[..n], b)
    decreases |b|
  {
    if n > 0 {
      assert a[..n][0] == a[0];
      if a[0] == b[0] {
        PrefixOfSubsequence(a[1..], b[1..], n - 1);
        assert a[..n][1..] == a[1..][..n - 1];
      } else {
        PrefixOfSubsequence(a, b[1..], n);
      }
    }
  }

  /** The symbols of the synthetic-index market, in the server's order. */
  function SyntheticOnly(symbols: seq<ActiveSymbol>): (r: seq<ActiveSymbol>)
    ensures forall i | 0 <= i < |r| :: r[i].market == SyntheticIndex
    ensures forall x | x in symbols && x.market == SyntheticIndex :: x in r
    ensures Subsequence(r, symbols)
    decreases |symbols|
  {
    if symbols == [] then []
    else if symbols[0].market == SyntheticIndex then [symbols[0]] + SyntheticOnly(symbols[1..])
    else SyntheticOnly(symbols[1..])
  }

  /** The filter keeps repeats: every synthetic symbol occurs in the result as
      often as in the server's list, and no other symbol occurs at all. */
  lemma {:induction false} SyntheticOnlyCounts(symbols: seq<ActiveSymbol>)
    ensures forall x :: multiset(SyntheticOnly(symbols))[x] ==
              if x.market == SyntheticIndex then multiset(symbols)[x] else 0
    decreases |symbols|
  {
    if symbols != [] {
      SyntheticOnlyCounts(symbols[1..]);
      assert symbols == [symbols[0]] + symbols[1..];
    }
  }

  /** The symbols the page shows and subscribes to: the first twenty
      synthetic indices of the server's list. */
  function ChooseSymbols(symbols: seq<ActiveSymbol>): (r: seq<ActiveSymbol>)
    ensures |r| <= MaxSymbols
    ensures forall i | 0 <= i < |r| :: r[i].market == SyntheticIndex
    ensures Subsequence(r, symbols)
    ensures r <= SyntheticOnly(symbols)
    ensures |SyntheticOnly(symbols)| <= MaxSymbols ==> r == SyntheticOnly(symbols)
    ensures |SyntheticOnly(symbols)| > MaxSymbols ==> |r| == MaxSymbols
  {
    var all := SyntheticOnly(symbols);
    var n := if |all| < MaxSymbols then |all| else MaxSymbols;
    PrefixOfSubsequence(all, symbols, n);
    all[..n]
  }

  function Names(symbols: seq<ActiveSymbol>): (r: seq<string>)
    ensures |r| == |symbols|
    ensures forall i | 0 <= i < |r| :: r[i] == symbols[i].symbol
  {
    seq(|symbols|, i requires 0 <= i < |symbols| => symbols[i].symbol)
  }

  predicate Distinct(names: seq<string>) {
    forall i, j | 0 <= i < j < |names| :: names[i] != names[j]
  }

  // --------------------------------------------------------- subscriptions

  /** `unsubscribeFromTicks`: one `forget_all` for the tick streams when the
      page holds any subscription, and the set emptied; nothing otherwise. */
  function UnsubscribeFromTicks(s: State): (r: Step<State>)
    ensures |s.subscribed| == 0 ==> r == Step(s, [])
    ensures |s.subscribed| > 0 ==> r.out == [ForgetAll(TicksStream)]
    ensures r.state == s.(subscribed := {})
    ensures Streaming(s.subscribed, r.out) == {}
  {
    if |s.subscribed| > 0 then Step(s.(subscribed := {}), [ForgetAll(TicksStream)])
    else Step(s, [])
  }

  /** `subscribeToSymbol`: a tick subscribe only for a symbol the page does not
      already hold, recorded in the subscription set when it is sent. */
  function SubscribeToSymbol(s: State, symbol: string): (r: Step<State>)
    ensures symbol in s.subscribed ==> r == Step(s, [])
    ensures symbol !in s.subscribed ==> r.out == [TicksSubscribe(symbol)]
    ensures r.state == s.(subscribed := s.subscribed + {symbol})
    ensures Streaming(s.subscribed, r.out) == r.state.subscribed
    ensures NoDuplicateSubscribe(s.subscribed, r.out)
  {
    if symbol !in s.subscribed then
      var r := Step(s.(subscribed := s.subscribed + {symbol}), [TicksSubscribe(symbol)]);
      assert r.out[1..] == [];
      r
    else Step(s, [])
  }

  /** The requests of `forEach(subscribeToSymbol)` inside the handler: every
      call checks the subscription set `s` as it was when the envelope
      arrived, not the updates queued by the earlier calls. */
  function SubscribeRequests(s: State, names: seq<string>): (out: seq<Request>)
    ensures OnlySubscribes(out)
    ensures forall x :: TicksSubscribe(x) in out <==> x in names && x !in s.subscribed
    decreases |names|
  {
    if names == [] then []
    else SubscribeToSymbol(s, names[0]).out + SubscribeRequests(s, names[1..])
  }

  /** The batch sends one subscribe per occurrence of a name the snapshot
      does not hold: a repeated new name is subscribed once per repeat. */
  lemma {:induction false} SubscribeRequestsCounts(s: State, names: seq<string>)
    ensures forall x :: multiset(SubscribeRequests(s, names))[TicksSubscribe(x)] ==
              if x in s.subscribed then 0 else multiset(names)[x]
    decreases |names|
  {
    if names != [] {
      SubscribeRequestsCounts(s, names[1..]);
      assert names == [names[0]] + names[1..];
    }
  }

  /** The `active_symbols` branch, as written: cancel the tick streams when the
      page held any, keep the first twenty synthetic indices, and subscribe
      to each that was not in the subscription set when the envelope arrived. */
  function OnActiveSymbols(s: State, symbols: seq<ActiveSymbol>): (r: Step<State>)
    ensures r.state.activeSymbols == ChooseSymbols(symbols)
    ensures ForgetBeforeSubscribe(r.out)
    ensures |s.subscribed| > 0 ==> |r.out| > 0 && r.out[0] == ForgetAll(TicksStream)
    ensures |s.subscribed| == 0 ==> ForgetAll(TicksStream) !in r.out
    ensures forall i | 0 < i < |r.out| :: r.out[i].TicksSubscribe?
    ensures |s.subscribed| == 0 ==> OnlySubscribes(r.out)
    ensures forall x :: TicksSubscribe(x) in r.out <==> x in Names(ChooseSymbols(symbols)) && x !in s.subscribed
    ensures r.state == s.(activeSymbols := r.state.activeSymbols, subscribed := r.state.subscribed)
  {
    var chosen := ChooseSymbols(symbols);
    var cancel := UnsubscribeFromTicks(s);
    var sends := SubscribeRequests(s, Names(chosen));
    var base := if |s.subscribed| > 0 then {} else s.subscribed;
    var out := cancel.out + sends;
    assert forall i | 0 <= i < |out| :: out[i] == if i < |cancel.out| then cancel.out[i] else sends[i - |cancel.out|];
    assert forall x :: TicksSubscribe(x) in out <==> TicksSubscribe(x) in sends;
    Step(s.(activeSymbols := chosen, subscribed := base + SubscribedSymbols(sends)), out)
  }

  // ----------------------------------------------------------------- ticks

  /** A tick with a truthy quote moves the symbol's current price to
      `previous` (`|| null`: a zero or missing price becomes null) and
      stores the quote as `current`; a zero quote is ignored. */
  function ApplyTick(prices: map<string, PriceData>, tick: Tick): (r: map<string, PriceData>)
    ensures tick.quote == 0.0 ==> r == prices
    ensures tick.quote != 0.0 ==> tick.symbol in r && r[tick.symbol].current == tick.quote
    ensures tick.quote != 0.0 && tick.symbol in prices && prices[tick.symbol].current != 0.0 ==>
              r[tick.symbol].previous == Some(prices[tick.symbol].current)
    ensures tick.quote != 0.0 && (tick.symbol !in prices || prices[tick.symbol].current == 0.0) ==>
              r[tick.symbol].previous == None
    ensures forall x | x != tick.symbol :: (x in r <==> x in prices) && (x in r ==> r[x] == prices[x])
  {
    if tick.quote != 0.0 then
      var prior := if tick.symbol in prices then Some(prices[tick.symbol].current) else None;
      prices[tick.symbol := PriceData(tick.quote, OrNull(prior))]
    else prices
  }

  // --------------------------------------------------------------- handler

  /** The message handler. An error runs no other branch, and
      `AlreadySubscribed` is swallowed; otherwise every key present is
      handled. The authorize, active_symbols, tick and buy branches update
      disjoint parts of the state, so the order they are applied in here
      does not change the result. */
  function Handle(s: State, env: Envelope): (r: Step<State>)
    ensures env.error.Some? && env.error.value.code == AlreadySubscribed ==> r == Step(s, [])
    ensures env.error.Some? && env.error.value.code != AlreadySubscribed ==>
              r == Step(s.(error := Some(env.error.value.message)), [])
    ensures env.error.None? ==> r.state.authorized == (s.authorized || env.authorize.Some?)
    ensures env.error.None? ==> r.state.error == (if env.authorize.Some? then None else s.error)
    ensures env.error.None? && env.activeSymbols.Some? ==>
              r == OnActiveSymbols(s, env.activeSymbols.value).(state := r.state)
    ensures env.error.None? && env.activeSymbols.Some? ==>
              r.state.activeSymbols == ChooseSymbols(env.activeSymbols.value)
    ensures env.error.Some? || env.activeSymbols.None? ==>
              r.out == [] && r.state.activeSymbols == s.activeSymbols && r.state.subscribed == s.subscribed
    ensures r.state.prices == (if env.error.None? && env.tick.Some? then ApplyTick(s.prices, env.tick.value) else s.prices)
    ensures r.state.currentTrade == (if env.error.None? && env.buy.Some? then env.buy else s.currentTrade)
    ensures r.state.selected == s.selected
  {
    if env.error.Some? then
      if env.error.value.code == AlreadySubscribed then Step(s, [])
      else Step(s.(error := Some(env.error.value.message)), [])
    else
      var afterSymbols := if env.activeSymbols.Some? then OnActiveSymbols(s, env.activeSymbols.value) else Step(s, []);
      var t := afterSymbols.state;
      var t := if env.authorize.Some? then t.(authorized := true, error := None) else t;
      var t := if env.tick.Some? then t.(prices := ApplyTick(t.prices, env.tick.value)) else t;
      var t := if env.buy.Some? then t.(currentTrade := env.buy) else t;
      Step(t, afterSymbols.out)
  }

  /** Envelopes handled one at a time in arrival order: the left fold of
      `Handle`, with the requests concatenated in order. */
  function Run(s: State, envs: seq<Envelope>): Step<State>
  {
    Fold(Handle, s, envs)
  }

  // ----------------------------------------------------------- user actions

  /** `handleTrade`: nothing without a (truthy) selected symbol, otherwise one
      `buy` whose price is the stake, in USD, with a duration in minutes. */
  function HandleTrade(s: State, contractType: ContractType, amount: real, duration: real): (out: seq<Request>)
    ensures !TruthyText(s.selected) ==> out == []
    ensures TruthyText(s.selected) ==> |out| == 1 && out[0].Buy?
    ensures forall i | 0 <= i < |out| ::
              && out[i].price == amount
              && out[i].parameters.amount == amount
              && out[i].parameters.basis == "stake"
              && out[i].parameters.contractType == contractType
              && out[i].parameters.currency == "USD"
              && out[i].parameters.duration == duration
              && out[i].parameters.durationUnit == "m"
              && Some(out[i].parameters.symbol) == s.selected
  {
    if !TruthyText(s.selected) then []
    else [Buy(amount, BuyParameters(amount, "stake", contractType, "USD", duration, "m", s.selected.value))]
  }

  /** `handleSymbolSelect`: only the selection changes; nothing is sent. */
  function HandleSymbolSelect(s: State, symbol: string): (r: State)
    ensures r.selected == Some(symbol)
    ensures r == s.(selected := r.selected)
  {
    s.(selected := Some(symbol))
  }

  // ================================================================ lemmas

  /** The page's subscription set is exactly the set of tick streams its own
      requests leave open, for every envelope. */
  lemma HandleKeepsRegistry(s: State, env: Envelope)
    ensures Streaming(s.subscribed, Handle(s, env).out) == Handle(s, env).state.subscribed
  {
    if env.error.None? && env.activeSymbols.Some? {
      var chosen := ChooseSymbols(env.activeSymbols.value);
      var cancel := UnsubscribeFromTicks(s);
      var sends := SubscribeRequests(s, Names(chosen));
      StreamingAppend(s.subscribed, cancel.out, sends);
      StreamingSubscribes(Streaming(s.subscribed, cancel.out), sends);
    }
  }

  /** The batch subscribe never repeats a stream, provided the names are
      distinct and every name open at the start was in the snapshot. */
  lemma {:induction false} SubscribeRequestsFresh(s: State, names: seq<string>, streaming: set<string>)
    requires Distinct(names)
    requires forall i | 0 <= i < |names| && names[i] in streaming :: names[i] in s.subscribed
    ensures NoDuplicateSubscribe(streaming, SubscribeRequests(s, names))
    decreases |names|
  {
    if names != [] {
      var first := SubscribeToSymbol(s, names[0]).out;
      var next := Streaming(streaming, first);
      NoDuplicateAppend(streaming, first, SubscribeRequests(s, names[1..]));
      if names[0] !in s.subscribed {
        assert first[1..] == [];
        assert next == streaming + {names[0]};
        assert NoDuplicateSubscribe(streaming, first);
      }
      forall i | 0 <= i < |names[1..]| && names[1..][i] in next
        ensures names[1..][i] in s.subscribed
      {
        assert names[1..][i] == names[i + 1];
      }
      SubscribeRequestsFresh(s, names[1..], next);
    }
  }

  /** No envelope makes the page subscribe twice to a tick stream, as long as
      the twenty symbols it keeps from a symbol list are distinct. */
  lemma HandleNoDuplicate(s: State, env: Envelope)
    requires env.error.None? && env.activeSymbols.Some? ==> Distinct(Names(ChooseSymbols(env.activeSymbols.value)))
    ensures NoDuplicateSubscribe(s.subscribed, Handle(s, env).out)
  {
    if env.error.None? && env.activeSymbols.Some? {
      var chosen := ChooseSymbols(env.activeSymbols.value);
      var cancel := UnsubscribeFromTicks(s);
      var sends := SubscribeRequests(s, Names(chosen));
      NoDuplicateAppend(s.subscribed, cancel.out, sends);
      var open := Streaming(s.subscribed, cancel.out);
      assert open <= s.subscribed;
      SubscribeRequestsFresh(s, Names(chosen), open);
      if cancel.out != [] {
        assert cancel.out[1..] == [];
      }
    }
  }

  predicate DistinctSymbolLists(envs: seq<Envelope>) {
    forall i | 0 <= i < |envs| && envs[i].error.None? && envs[i].activeSymbols.Some? ::
      Distinct(Names(ChooseSymbols(envs[i].activeSymbols.value)))
  }

  /** Over any run of envelopes the subscription set stays equal to the open
      tick streams, and no tick stream is ever requested twice. */
  lemma {:induction false} RunKeepsRegistry(s: State, envs: seq<Envelope>)
    ensures Streaming(s.subscribed, Run(s, envs).out) == Run(s, envs).state.subscribed
    ensures DistinctSymbolLists(envs) ==> NoDuplicateSubscribe(s.subscribed, Run(s, envs).out)
    decreases |envs|
  {
    if envs != [] {
      var first := Handle(s, envs[0]);
      HandleKeepsRegistry(s, envs[0]);
      RunKeepsRegistry(first.state, envs[1..]);
      StreamingAppend(s.subscribed, first.out, Run(first.state, envs[1..]).out);
      if DistinctSymbolLists(envs) {
        HandleNoDuplicate(s, envs[0]);
        assert DistinctSymbolLists(envs[1..]) by {
          forall i | 0 <= i < |envs[1..]| && envs[1..][i].error.None? && envs[1..][i].activeSymbols.Some?
            ensures Distinct(Names(ChooseSymbols(envs[1..][i].activeSymbols.value)))
          {
            assert envs[1..][i] == envs[i + 1];
          }
        }
        NoDuplicateAppend(s.subscribed, first.out, Run(first.state, envs[1..]).out);
      }
    }
  }

  /** As written, a symbol list that arrives while the page holds
      subscriptions cancels every tick stream and never re-subscribes the
      symbols it already held: they are shown, but no longer streamed. */
  lemma ResubscribeDropsKnownSymbols(s: State, symbols: seq<ActiveSymbol>, symbol: string)
    requires symbol in Names(ChooseSymbols(symbols))
    requires symbol in s.subscribed
    ensures var r := Handle(s, Blank.(activeSymbols := Some(symbols)));
            && ForgetAll(TicksStream) in r.out
            && TicksSubscribe(symbol) !in r.out
            && symbol !in Streaming(s.subscribed, r.out)
            && symbol !in r.state.subscribed
  {
    var r := Handle(s, Blank.(activeSymbols := Some(symbols)));
    HandleKeepsRegistry(s, Blank.(activeSymbols := Some(symbols)));
    assert r.out[0] == ForgetAll(TicksStream);
    var sends := SubscribeRequests(s, Names(ChooseSymbols(symbols)));
    SubscribedSymbolsMembership(sends, symbol);
    assert r.state.subscribed == {} + SubscribedSymbols(sends);
  }

  /** A concrete instance: `R_100` is subscribed and the server's list
      repeats it; the page cancels it and sends nothing else. */
  lemma ResubscribeExample()
    ensures var s := Initial.(subscribed := {"R_100"});
            var env := Blank.(activeSymbols := Some([ActiveSymbol("R_100", "Volatility 100 Index", SyntheticIndex, "Derived")]));
            Handle(s, env).out == [ForgetAll(TicksStream)] && Handle(s, env).state.subscribed == {}
  {
    var symbols := [ActiveSymbol("R_100", "Volatility 100 Index", SyntheticIndex, "Derived")];
    assert SyntheticOnly(symbols[1..]) == [];
    assert ChooseSymbols(symbols) == symbols;
    var s := Initial.(subscribed := {"R_100"});
    var names := Names(symbols);
    assert names == ["R_100"];
    assert SubscribeRequests(s, names[1..]) == [];
    assert SubscribeRequests(s, names) == [];
  }

  /** As written, a symbol list that repeats a symbol the page does not yet
      hold sends two subscribes for it: the second check reads the same
      render-time set as the first. */
  lemma RepeatedSymbolSubscribesTwice()
    ensures var a := ActiveSymbol("R_50", "Volatility 50 Index", SyntheticIndex, "Derived");
            var r := Handle(Initial, Blank.(activeSymbols := Some([a, a])));
            && r.out == [TicksSubscribe("R_50"), TicksSubscribe("R_50")]
            && !NoDuplicateSubscribe(Initial.subscribed, r.out)
  {
    var a := ActiveSymbol("R_50", "Volatility 50 Index", SyntheticIndex, "Derived");
    var symbols := [a, a];
    assert symbols[1..] == [a] && symbols[1..][1..] == [];
    assert SyntheticOnly(symbols) == symbols;
    assert ChooseSymbols(symbols) == symbols;
    var names := Names(symbols);
    assert names == ["R_50", "R_50"];
    assert names[1..] == ["R_50"] && names[1..][1..] == [];
    assert SubscribeToSymbol(Initial, "R_50").out == [TicksSubscribe("R_50")];
    assert SubscribeRequests(Initial, names[1..][1..]) == [];
    assert SubscribeRequests(Initial, names[1..]) == [TicksSubscribe("R_50")];
    var out := SubscribeRequests(Initial, names);
    assert out == [TicksSubscribe("R_50"), TicksSubscribe("R_50")];
    assert out[1..] == [TicksSubscribe("R_50")];
    assert AfterRequest({}, out[0]) == {"R_50"};
  }

  /** The intended re-subscription: each kept symbol is checked against the
      subscription set as it stands after the cancel and the earlier
      subscribes, so every kept symbol is streamed exactly once. */
  function SubscribeEach(s: State, names: seq<string>): (r: Step<State>)
    ensures OnlySubscribes(r.out)
    ensures forall i | 0 <= i < |names| :: names[i] in r.state.subscribed
    ensures forall x :: x in r.state.subscribed <==> x in s.subscribed || x in names
    ensures r.state == s.(subscribed := r.state.subscribed)
    ensures Streaming(s.subscribed, r.out) == r.state.subscribed
    ensures NoDuplicateSubscribe(s.subscribed, r.out)
    decreases |names|
  {
    if names == [] then Step(s, [])
    else
      var first := SubscribeToSymbol(s, names[0]);
      var rest := SubscribeEach(first.state, names[1..]);
      StreamingAppend(s.subscribed, first.out, rest.out);
      NoDuplicateAppend(s.subscribed, first.out, rest.out);
      assert forall i | 1 <= i < |names| :: names[i] == names[1..][i - 1];
      Step(rest.state, first.out + rest.out)
  }

  function OnActiveSymbolsIntended(s: State, symbols: seq<ActiveSymbol>): (r: Step<State>)
    ensures r.state.activeSymbols == ChooseSymbols(symbols)
    ensures ForgetBeforeSubscribe(r.out)
    ensures |s.subscribed| > 0 ==> |r.out| > 0 && r.out[0] == ForgetAll(TicksStream)
    ensures |s.subscribed| == 0 ==> ForgetAll(TicksStream) !in r.out
    ensures forall i | 0 < i < |r.out| :: r.out[i].TicksSubscribe?
    ensures |s.subscribed| == 0 ==> OnlySubscribes(r.out)
    ensures forall x :: x in r.state.subscribed <==> x in Names(ChooseSymbols(symbols))
    ensures Streaming(s.subscribed, r.out) == r.state.subscribed
    ensures NoDuplicateSubscribe(s.subscribed, r.out)
    ensures r.state == s.(activeSymbols := r.state.activeSymbols, subscribed := r.state.subscribed)
  {
    var chosen := ChooseSymbols(symbols);
    var cancel := UnsubscribeFromTicks(s);
    var sends := SubscribeEach(cancel.state, Names(chosen));
    StreamingAppend(s.subscribed, cancel.out, sends.out);
    NoDuplicateAppend(s.subscribed, cancel.out, sends.out);
    assert cancel.out != [] ==> cancel.out[1..] == [];
    Step(sends.state.(activeSymbols := chosen), cancel.out + sends.out)
  }

  /** Three truthy quotes for one symbol leave the second as `previous` and
      the third as `current`. */
  lemma ThreeTicks(s: State, symbol: string, q1: real, q2: real, q3: real)
    requires q1 != 0.0 && q2 != 0.0 && q3 != 0.0
    ensures var envs := [TickEnvelope(symbol, q1), TickEnvelope(symbol, q2), TickEnvelope(symbol, q3)];
            symbol in Run(s, envs).state.prices && Run(s, envs).state.prices[symbol] == PriceData(q3, Some(q2))
  {
    TickRun(s, symbol, [q1, q2, q3]);
    var envs := [TickEnvelope(symbol, q1), TickEnvelope(symbol, q2), TickEnvelope(symbol, q3)];
    var quotes := [q1, q2, q3];
    assert envs == seq(|quotes|, i requires 0 <= i < |quotes| => TickEnvelope(symbol, quotes[i]));
  }

  /** Any run of two or more truthy ticks for one symbol ends with the last
      quote as `current` and the one before it as `previous`. */
  lemma {:induction false} TickRun(s: State, symbol: string, quotes: seq<real>)
    requires |quotes| >= 2
    requires forall i | 0 <= i < |quotes| :: quotes[i] != 0.0
    ensures var envs := seq(|quotes|, i requires 0 <= i < |quotes| => TickEnvelope(symbol, quotes[i]));
            && symbol in Run(s, envs).state.prices
            && Run(s, envs).state.prices[symbol] == PriceData(quotes[|quotes| - 1], Some(quotes[|quotes| - 2]))
    decreases |quotes|
  {
    var envs := seq(|quotes|, i requires 0 <= i < |quotes| => TickEnvelope(symbol, quotes[i]));
    var first := Handle(s, envs[0]);
    assert first.state.prices == ApplyTick(s.prices, Tick(symbol, quotes[0], 0));
    var tail := seq(|quotes| - 1, i requires 0 <= i < |quotes| - 1 => TickEnvelope(symbol, quotes[1..][i]));
    assert envs[1..] == tail;
    var rest := Run(first.state, tail);
    assert Run(s, envs).state == rest.state;
    if |quotes| == 2 {
      assert tail[1..] == [];
      var second := Handle(first.state, tail[0]);
      assert Run(second.state, tail[1..]) == Step(second.state, []);
      assert rest.state == second.state;
      assert second.state.prices == ApplyTick(first.state.prices, Tick(symbol, quotes[1], 0));
    } else {
      TickRun(first.state, symbol, quotes[1..]);
      assert quotes[1..][|quotes[1..]| - 1] == quotes[|quotes| - 1];
      assert quotes[1..][|quotes[1..]| - 2] == quotes[|quotes| - 2];
    }
  }

  /** The worked example: two quotes for `R_100`. */
  lemma TickExample()
    ensures Run(Initial, [TickEnvelope("R_100", 100.50), TickEnvelope("R_100", 101.20)]).state.prices["R_100"]
            == PriceData(101.20, Some(100.50))
  {
    var envs := [TickEnvelope("R_100", 100.50), TickEnvelope("R_100", 101.20)];
    assert envs[1..] == [TickEnvelope("R_100", 101.20)];
    assert envs[1..][1..] == [];
  }

  /** Mounting, then the server's authorize and symbol list: the page is
      authorized, shows the chosen symbols and subscribes to each of them.
      Only the absence of duplicate subscribes needs distinct symbols. */
  lemma MountSession(info: AuthorizeInfo, symbols: seq<ActiveSymbol>)
    ensures Mount() == [Authorize, ActiveSymbols("brief", Some("basic"))]
    ensures var r := Run(Initial, [AuthorizeEnvelope(info), Blank.(activeSymbols := Some(symbols))]);
            && r.state.authorized
            && r.state.activeSymbols == ChooseSymbols(symbols)
            && (forall x :: x in r.state.subscribed <==> x in Names(ChooseSymbols(symbols)))
            && ForgetAll(TicksStream) !in Mount() + r.out
            && (Distinct(Names(ChooseSymbols(symbols))) ==> NoDuplicateSubscribe({}, r.out))
  {
    var envs := [AuthorizeEnvelope(info), Blank.(activeSymbols := Some(symbols))];
    assert envs[1..] == [Blank.(activeSymbols := Some(symbols))];
    assert envs[1..][1..] == [];
    var first := Handle(Initial, envs[0]);
    assert first.state == Initial.(authorized := true);
    assert first.out == [];
    var second := Handle(first.state, envs[1]);
    assert Run(second.state, envs[1..][1..]) == Step(second.state, []);
    assert Run(first.state, envs[1..]) == Step(second.state, second.out + []);
    assert Run(Initial, envs) == Step(second.state, second.out);
    if Distinct(Names(ChooseSymbols(symbols))) {
      HandleNoDuplicate(first.state, envs[1]);
    }
    var chosen := ChooseSymbols(symbols);
    var sends := SubscribeRequests(first.state, Names(chosen));
    assert second.out == sends;
    assert second.state.subscribed == {} + SubscribedSymbols(sends);
    forall x ensures x in second.state.subscribed <==> x in Names(chosen) {
      SubscribedSymbolsMembership(sends, x);
    }
    assert ForgetAll(TicksStream) !in Mount();
  }

  /** Selecting a symbol and trading sends one stake buy for that symbol. */
  lemma SelectThenTrade(s: State, symbol: string, contractType: ContractType, amount: real, duration: real)
    requires symbol != ""
    ensures HandleTrade(HandleSymbolSelect(s, symbol), contractType, amount, duration)
            == [Buy(amount, BuyParameters(amount, "stake", contractType, "USD", duration, "m", symbol))]
  {
  }
}
