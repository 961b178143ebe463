/** `evaluateFlag(configId, flagKey, context)`: fetch one flag from a given
    configuration profile and decide it; a rejected fetch is re-thrown. */
module FlagEvaluation {
  import opened Wrappers
  import opened FeatureFlagModel
  import opened FlagDecision
  import opened AppConfigAgent

  /** What `evaluateFlag` resolves or rejects with, given what its lookup gave. */
  function EvaluateOutcome(lookup: Lookup, context: Option<Context>): (r: Result<bool, FetchError>)
    ensures r.Failure? <==> lookup.Failed?
    ensures r.Failure? ==> r.error == lookup.error
    ensures r.Success? ==> r.value == Decide(lookup.flag, context)
  {
    match lookup
    case Failed(e) => Failure(e)
    case Found(flag) => Success(Decide(flag, context))
  }

  /** A rejected lookup is passed on, not turned into `false`. */
  lemma FailureIsRethrown(error: FetchError, context: Option<Context>)
    ensures EvaluateOutcome(Failed(error), context) == Failure(error)
  {
  }

  /** Starts from "disabled" and refines the result step by step, as the
      source does; exactly one `getFlag` call is made. */
  method EvaluateFlag(agent: Agent, configId: string, flagKey: string, context: Option<Context>)
    returns (r: Result<bool, FetchError>)
    modifies agent`calls
    ensures agent.calls == old(agent.calls) + [GetFlagCall(configId, flagKey)]
    ensures r == EvaluateOutcome(agent.answer(GetFlagCall(configId, flagKey)), context)
  {
    var isEnabled := false;
    var lookup := agent.GetFlag(configId, flagKey);
    if lookup.Failed? {
      return Failure(lookup.error);
    }
    var flag := lookup.flag;
    if flag.Some? {
      isEnabled := flag.value.enabled;
      if flag.value.enabled {
        if context.Some? {
          var isCustomerEnabled := flag.value.customers.None? || context.value.customerId in flag.value.customers.value;
          isEnabled := isEnabled && isCustomerEnabled;
        }
      }
    }
    return Success(isEnabled);
  }
}
