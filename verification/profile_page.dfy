/** The profile page: a balance subscription guarded by an `isSubscribed`
    flag, with `AlreadySubscribed` treated as confirmation. */
module ProfilePage {
  import opened Wire
  import opened Subscriptions

  /** The `marginUsage` every balance display carries. */
  const MarginUsage := 5

  datatype AccountBalance = AccountBalance(
    totalBalance: real,
    availableBalance: real,
    equity: real,
    marginUsage: int,
    currency: string)

  datatype State = State(
    balance: Option<AccountBalance>,
    error: Option<string>,
    loading: bool,
    subscribed: bool)

  const Initial := State(None, None, true, false)

  /** The display built from a server balance: total and equity are the
      balance, the available part is 95% of it. */
  function Display(amount: real, currency: string): AccountBalance {
    AccountBalance(amount, amount * 0.95, amount, MarginUsage, currency)
  }

  /** `cleanupSubscriptions`: cancel the balance stream and clear the flag. */
  function CleanupSubscriptions(s: State): (r: Step<State>)
    ensures r.state == s.(subscribed := false)
    ensures r.out == [ForgetAll(BalanceStream)]
    ensures forall open: bool :: !BalanceOpen(open, r.out)
  {
    Step(s.(subscribed := false), [ForgetAll(BalanceStream)])
  }

  /** `fetchBalance`: loading, no error, the balance stream cancelled, then
      `authorize`. */
  function FetchBalance(s: State): (r: Step<State>)
    ensures r.state == s.(loading := true, error := None, subscribed := false)
    ensures r.out == [ForgetAll(BalanceStream), Authorize]
    ensures forall open: bool :: !BalanceOpen(open, r.out)
  {
    var cleanup := CleanupSubscriptions(s.(loading := true, error := None));
    var out := cleanup.out + [Authorize];
    assert out[1..] == [Authorize] && out[1..][1..] == [];
    assert BalanceOpen(false, out[1..]) == BalanceOpen(false, []);
    assert forall open: bool :: BalanceOpen(open, out) == BalanceOpen(false, out[1..]);
    Step(cleanup.state, out)
  }

  /** The mount effect, less the identity-service lookup: the page starts
      loading with no balance, cancels any balance stream, then authorizes. */
  function Mount(): (r: Step<State>)
    ensures r.state == State(None, None, true, false)
    ensures r.out == [ForgetAll(BalanceStream), Authorize]
    ensures forall open: bool :: !BalanceOpen(open, r.out)
  {
    FetchBalance(Initial)
  }

  /** `subscribeToBalance`: one `balance`+`subscribe` unless the flag is set. */
  function SubscribeToBalance(s: State): (out: seq<Request>)
    ensures s.subscribed ==> out == []
    ensures !s.subscribed ==> out == [BalanceSubscribe] && BalanceOpen(false, out)
  {
    if !s.subscribed then [BalanceSubscribe] else []
  }

  /** The message handler. */
  function Handle(s: State, env: Envelope): (r: Step<State>)
    ensures env.error.Some? && env.error.value.code == AlreadySubscribed ==>
              r == Step(s.(error := None, loading := false, subscribed := true), [])
    ensures env.error.Some? && env.error.value.code != AlreadySubscribed ==>
              r == Step(s.(error := Some(env.error.value.message), loading := false), [])
    ensures env.error.None? && env.authorize.Some? ==> r.out == SubscribeToBalance(s)
    ensures env.authorize.None? ==> r.out == []
    ensures env.error.None? ==> r.state.subscribed == (s.subscribed || (env.balance.Some? && env.subscription.Some?))
    ensures env.error.None? && env.balance.Some? ==>
              r.state.balance == Some(Display(env.balance.value.balance, env.balance.value.currency))
    ensures env.error.None? && env.balance.None? && env.authorize.Some? ==>
              r.state.balance == Some(Display(env.authorize.value.balance, env.authorize.value.currency))
    ensures env.error.None? && (env.authorize.Some? || env.balance.Some?) ==> !r.state.loading && r.state.error == None
    ensures env.error.None? && env.authorize.None? && env.balance.None? ==> r == Step(s, [])
  {
    if env.error.Some? then
      if env.error.value.code == AlreadySubscribed then
        Step(s.(error := None, loading := false, subscribed := true), [])
      else Step(s.(error := Some(env.error.value.message), loading := false), [])
    else
      var t := s;
      var out := if env.authorize.Some? then SubscribeToBalance(s) else [];
      var t := if env.authorize.Some? then
                 t.(balance := Some(Display(env.authorize.value.balance, env.authorize.value.currency)),
                    loading := false, error := None)
               else t;
      var t := if env.balance.Some? && env.subscription.Some? then t.(subscribed := true) else t;
      var t := if env.balance.Some? then
                 t.(balance := Some(Display(env.balance.value.balance, env.balance.value.currency)),
                    loading := false, error := None)
               else t;
      Step(t, out)
  }

  function Run(s: State, envs: seq<Envelope>): Step<State>
  {
    Fold(Handle, s, envs)
  }

  /** The error screen: a truthy error whose text does not mention
      `AlreadySubscribed`. */
  predicate ShowsErrorScreen(s: State) {
    TruthyText(s.error) && !Contains(s.error.value, AlreadySubscribed)
  }

  // ================================================================ lemmas

  /** After any error envelope the screen is shown exactly when the error is
      not `AlreadySubscribed` and its message is non-empty and does not
      mention `AlreadySubscribed`. */
  lemma ErrorScreenAfterError(s: State, code: string, message: string)
    ensures ShowsErrorScreen(Handle(s, ErrorEnvelope(code, message)).state) <==>
            code != AlreadySubscribed && message != "" && !Contains(message, AlreadySubscribed)
  {
  }

  /** Once the page is subscribed, no envelope sequence clears the flag or
      makes it send any request: the balance stream is requested at most once. */
  lemma {:induction false} SubscribedIsSticky(s: State, envs: seq<Envelope>)
    requires s.subscribed
    ensures Run(s, envs).state.subscribed
    ensures Run(s, envs).out == []
    decreases |envs|
  {
    if envs != [] {
      SubscribedIsSticky(Handle(s, envs[0]).state, envs[1..]);
    }
  }

  /** `fetchBalance` followed by the server's `authorize` opens the balance
      stream again: cancel, authorize, then subscribe. */
  /** Mounting, then the server's authorize, then its first balance update:
      the stream is opened once, by the authorize reply, but the flag is set
      only by the update that carries the subscription id. */
  lemma MountSession(info: AuthorizeInfo, update: BalanceInfo, sub: SubscriptionInfo)
    ensures var reply := Handle(Mount().state, AuthorizeEnvelope(info));
            var confirm := Handle(reply.state, Blank.(balance := Some(update), subscription := Some(sub)));
            && Mount().out + reply.out + confirm.out == [ForgetAll(BalanceStream), Authorize, BalanceSubscribe]
            && BalanceOpen(false, Mount().out + reply.out)
            && !reply.state.subscribed && reply.state.balance == Some(Display(info.balance, info.currency))
            && confirm.state.subscribed && confirm.state.balance == Some(Display(update.balance, update.currency))
  {
    FetchThenAuthorize(Initial, info);
  }

  lemma FetchThenAuthorize(s: State, info: AuthorizeInfo)
    ensures var fetch := FetchBalance(s);
            var reply := Handle(fetch.state, AuthorizeEnvelope(info));
            && fetch.out + reply.out == [ForgetAll(BalanceStream), Authorize, BalanceSubscribe]
            && BalanceOpen(false, fetch.out + reply.out)
            && reply.state.balance == Some(Display(info.balance, info.currency))
            && !reply.state.loading && !ShowsErrorScreen(reply.state)
  {
    var out := [ForgetAll(BalanceStream), Authorize, BalanceSubscribe];
    assert out[1..] == [Authorize, BalanceSubscribe];
    assert out[1..][1..] == [BalanceSubscribe];
    assert out[1..][1..][1..] == [];
  }
}
