/** The server's view of a connection's streams, derived from nothing but the
    requests the client has sent on it. This is the reference the pages'
    own bookkeeping (`subscribedSymbols`, `isSubscribed`) is checked against:
    `ticks`+`subscribe` opens a tick stream for one symbol, `balance`+`subscribe`
    opens the balance stream, and `forget_all` closes every stream of a kind. */
module Subscriptions {
  import opened Wire

  /** Tick symbols streaming after one more request. */
  function AfterRequest(streaming: set<string>, req: Request): set<string> {
    match req
    case ForgetAll(stream) => if stream == TicksStream then {} else streaming
    case TicksSubscribe(symbol) => streaming + {symbol}
    case _ => streaming
  }

  /** Tick symbols streaming after the server receives `reqs`, in order,
      starting from `streaming`. */
  function Streaming(streaming: set<string>, reqs: seq<Request>): set<string>
    decreases |reqs|
  {
    if reqs == [] then streaming
    else Streaming(AfterRequest(streaming, reqs[0]), reqs[1..])
  }

  /** No tick subscribe in `reqs` asks for a symbol that is already streaming
      when the server receives it. */
  predicate NoDuplicateSubscribe(streaming: set<string>, reqs: seq<Request>)
    decreases |reqs|
  {
    reqs == [] ||
    ((reqs[0].TicksSubscribe? ==> reqs[0].symbol !in streaming) &&
     NoDuplicateSubscribe(AfterRequest(streaming, reqs[0]), reqs[1..]))
  }

  /** The symbols of the tick subscribes in `reqs`. */
  function SubscribedSymbols(reqs: seq<Request>): set<string>
    decreases |reqs|
  {
    if reqs == [] then {}
    else (if reqs[0].TicksSubscribe? then {reqs[0].symbol} else {}) + SubscribedSymbols(reqs[1..])
  }

  predicate OnlySubscribes(reqs: seq<Request>) {
    forall i | 0 <= i < |reqs| :: reqs[i].TicksSubscribe?
  }

  /** Every `forget_all` in `reqs` is sent before every tick subscribe. */
  predicate ForgetBeforeSubscribe(reqs: seq<Request>) {
    forall i, j | 0 <= i < |reqs| && 0 <= j < |reqs| && reqs[i].ForgetAll? && reqs[j].TicksSubscribe? :: i < j
  }

  /** Whether the balance stream is open after the server receives `reqs`. */
  function BalanceOpen(open: bool, reqs: seq<Request>): bool
    decreases |reqs|
  {
    if reqs == [] then open
    else
      var next := match reqs[0]
        case BalanceSubscribe => true
        case ForgetAll(stream) => if stream == BalanceStream then false else open
        case _ => open;
      BalanceOpen(next, reqs[1..])
  }

  lemma {:induction false} SubscribedSymbolsMembership(reqs: seq<Request>, x: string)
    ensures x in SubscribedSymbols(reqs) <==> TicksSubscribe(x) in reqs
    decreases |reqs|
  {
    if reqs != [] {
      SubscribedSymbolsMembership(reqs[1..], x);
      assert reqs == [reqs[0]] + reqs[1..];
    }
  }

  /** Sending `a` then `b` leaves the streams of sending `a + b`. */
  lemma {:induction false} StreamingAppend(streaming: set<string>, a: seq<Request>, b: seq<Request>)
    ensures Streaming(streaming, a + b) == Streaming(Streaming(streaming, a), b)
    decreases |a|
  {
    if a != [] {
      assert (a + b)[1..] == a[1..] + b;
      StreamingAppend(AfterRequest(streaming, a[0]), a[1..], b);
    } else {
      assert a + b == b;
    }
  }

  /** Duplicate-freedom of `a + b` splits at the seam. */
  lemma {:induction false} NoDuplicateAppend(streaming: set<string>, a: seq<Request>, b: seq<Request>)
    ensures NoDuplicateSubscribe(streaming, a + b) <==>
            NoDuplicateSubscribe(streaming, a) && NoDuplicateSubscribe(Streaming(streaming, a), b)
    decreases |a|
  {
    if a != [] {
      assert (a + b)[1..] == a[1..] + b;
      assert (a + b)[0] == a[0];
      NoDuplicateAppend(AfterRequest(streaming, a[0]), a[1..], b);
    } else {
      assert a + b == b;
    }
  }

  /** A run of subscribes adds exactly its symbols to the streams. */
  lemma {:induction false} StreamingSubscribes(streaming: set<string>, reqs: seq<Request>)
    requires OnlySubscribes(reqs)
    ensures Streaming(streaming, reqs) == streaming + SubscribedSymbols(reqs)
    decreases |reqs|
  {
    if reqs != [] {
      StreamingSubscribes(AfterRequest(streaming, reqs[0]), reqs[1..]);
    }
  }

  /** Cancelling then subscribing to one symbol leaves exactly that symbol
      streaming, and the subscribe is never a duplicate, whatever was open. */
  lemma ForgetThenSubscribe(streaming: set<string>, symbol: string)
    ensures Streaming(streaming, [ForgetAll(TicksStream), TicksSubscribe(symbol)]) == {symbol}
    ensures NoDuplicateSubscribe(streaming, [ForgetAll(TicksStream), TicksSubscribe(symbol)])
  {
    var reqs := [ForgetAll(TicksStream), TicksSubscribe(symbol)];
    assert reqs[1..] == [TicksSubscribe(symbol)];
    assert reqs[1..][1..] == [];
    assert Streaming({symbol}, []) == {symbol};
    assert Streaming({}, reqs[1..]) == {symbol};
  }
}
