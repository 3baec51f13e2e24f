/** The account-limits page: authorize, then `get_limits`, then three limits
    each defaulted to zero. */
module AccountLimitsPage {
  import opened Wire

  datatype AccountLimits = AccountLimits(
    withdrawalLimits: real,
    availableWithdrawal: real,
    turnoverLimit: real)

  datatype State = State(limits: Option<AccountLimits>, loading: bool, error: Option<string>)

  const Initial := State(None, true, None)

  /** `fetchLimits` (also the mount effect). */
  function FetchLimits(s: State): (r: Step<State>)
    ensures r.state.loading && r.state.error == None && r.state.limits == s.limits
    ensures r.out == [Authorize]
  {
    Step(s.(loading := true, error := None), [Authorize])
  }

  /** The limits shown for a `get_limits` response: each server value with
      `|| 0`. */
  function FromServer(l: Limits): AccountLimits {
    AccountLimits(OrZero(l.dailyWithdrawalLimit), OrZero(l.withdrawalAvailable), OrZero(l.turnoverLimit))
  }

  /** The message handler. */
  function Handle(s: State, env: Envelope): (r: Step<State>)
    ensures env.error.Some? ==> r == Step(s.(error := Some(env.error.value.message), loading := false), [])
    ensures env.error.None? && env.authorize.Some? ==> r.out == [GetLimits]
    ensures env.error.Some? || env.authorize.None? ==> r.out == []
    ensures env.error.None? && env.getLimits.Some? ==>
              && r.state.limits.Some?
              && r.state.limits.value.withdrawalLimits == env.getLimits.value.dailyWithdrawalLimit.GetOr(0.0)
              && r.state.limits.value.availableWithdrawal == env.getLimits.value.withdrawalAvailable.GetOr(0.0)
              && r.state.limits.value.turnoverLimit == env.getLimits.value.turnoverLimit.GetOr(0.0)
              && !r.state.loading && r.state.error == None
    ensures env.error.None? && env.getLimits.None? ==> r.state == s
  {
    if env.error.Some? then Step(s.(error := Some(env.error.value.message), loading := false), [])
    else
      var out := if env.authorize.Some? then [GetLimits] else [];
      if env.getLimits.Some? then Step(State(Some(FromServer(env.getLimits.value)), false, None), out)
      else Step(s, out)
  }

  /** The full chain: fetch, the server's authorize, the server's limits. */
  lemma FetchChain(s: State, info: AuthorizeInfo, limits: Limits)
    ensures var fetch := FetchLimits(s);
            var authorized := Handle(fetch.state, AuthorizeEnvelope(info));
            var shown := Handle(authorized.state, Blank.(getLimits := Some(limits)));
            && fetch.out + authorized.out + shown.out == [Authorize, GetLimits]
            && shown.state == State(Some(FromServer(limits)), false, None)
  {
  }
}
