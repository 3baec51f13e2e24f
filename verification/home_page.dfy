/** The home page: the balance and currency taken from `authorize`. */
module HomePage {
  import opened Wire

  datatype State = State(balance: Option<real>, currency: string)

  /** No balance yet, dollars by default. */
  const Initial := State(None, "USD")

  /** Requests sent when the page mounts. */
  function Mount(): seq<Request> {
    [Authorize]
  }

  /** The message handler: only `authorize` is read; errors are ignored. */
  function Handle(s: State, env: Envelope): (r: Step<State>)
    ensures r.out == []
    ensures env.authorize.None? ==> r.state == s
    ensures env.authorize.Some? ==>
              r.state.balance == Some(env.authorize.value.balance) && r.state.currency == env.authorize.value.currency
  {
    if env.authorize.Some? then Step(State(Some(env.authorize.value.balance), env.authorize.value.currency), [])
    else Step(s, [])
  }

  function Run(s: State, envs: seq<Envelope>): Step<State>
  {
    Fold(Handle, s, envs)
  }

  /** No envelope after index `k` carries `authorize`. */
  predicate LaterHaveNoAuthorize(envs: seq<Envelope>, k: nat) {
    forall j | k < j < |envs| :: envs[j].authorize.None?
  }

  /** The state shown is the one from the last `authorize` envelope, or the
      starting state when there was none; no envelope sends anything. */
  lemma {:induction false} LastAuthorizeWins(s: State, envs: seq<Envelope>)
    ensures Run(s, envs).out == []
    ensures (forall i | 0 <= i < |envs| :: envs[i].authorize.None?) ==> Run(s, envs).state == s
    ensures forall k | 0 <= k < |envs| && envs[k].authorize.Some? && LaterHaveNoAuthorize(envs, k) ::
              Run(s, envs).state == State(Some(envs[k].authorize.value.balance), envs[k].authorize.value.currency)
    decreases |envs|
  {
    if envs != [] {
      var first := Handle(s, envs[0]);
      var rest := envs[1..];
      LastAuthorizeWins(first.state, rest);
      assert forall i | 0 <= i < |rest| :: rest[i] == envs[i + 1];
      forall k | 0 <= k < |envs| && envs[k].authorize.Some? && LaterHaveNoAuthorize(envs, k)
        ensures Run(s, envs).state == State(Some(envs[k].authorize.value.balance), envs[k].authorize.value.currency)
      {
        if k == 0 {
          assert forall i | 0 <= i < |rest| :: rest[i].authorize.None?;
        } else {
          assert LaterHaveNoAuthorize(rest, k - 1);
        }
      }
    }
  }

  /** Mounting, then the server's authorize: the balance is shown. */
  lemma MountSession(info: AuthorizeInfo)
    ensures Mount() == [Authorize]
    ensures Handle(Initial, AuthorizeEnvelope(info)).state == State(Some(info.balance), info.currency)
  {
  }
}
