/** `isFlagEnabled(flagKey, context)`: look one flag up in the default
    profile and decide it; a rejected lookup is absorbed into `false`
    (fail closed). */
module FlagEnabled {
  import opened Wrappers
  import opened FeatureFlagModel
  import opened FlagDecision
  import opened AppConfigAgent
  import FlagEvaluation

  /** What `isFlagEnabled` resolves to, given what its lookup gave; it never
      rejects. */
  function IsEnabledOutcome(lookup: Lookup, context: Option<Context>): (on: bool)
    ensures on ==> lookup.Found? && lookup.flag.Some? && lookup.flag.value.enabled
    ensures lookup.Found? ==> on == Decide(lookup.flag, context)
  {
    match lookup
    case Failed(_) => false
    case Found(flag) => Decide(flag, context)
  }

  /** A rejected lookup gives `false`. */
  lemma FailureIsOff(error: FetchError, context: Option<Context>)
    ensures !IsEnabledOutcome(Failed(error), context)
  {
  }

  /** The two evaluators agree whenever the lookup did not fail, and differ
      only in that `evaluateFlag` re-throws where `isFlagEnabled` gives
      `false`. */
  lemma EvaluatorsAgree(lookup: Lookup, context: Option<Context>)
    ensures lookup.Found? ==> FlagEvaluation.EvaluateOutcome(lookup, context) == Success(IsEnabledOutcome(lookup, context))
    ensures lookup.Failed? ==> FlagEvaluation.EvaluateOutcome(lookup, context) == Failure(lookup.error) && !IsEnabledOutcome(lookup, context)
  {
  }

  /** Starts from "disabled", refines step by step and overrides the result
      with `false` when the lookup rejects; exactly one `findFlagByKey` call
      is made. */
  method IsFlagEnabled(agent: Agent, flagKey: string, context: Option<Context>) returns (isEnabled: bool)
    modifies agent`calls
    ensures agent.calls == old(agent.calls) + [FindFlagByKeyCall(flagKey)]
    ensures isEnabled == IsEnabledOutcome(agent.answer(FindFlagByKeyCall(flagKey)), context)
  {
    isEnabled := false;
    var lookup := agent.FindFlagByKey(flagKey);
    if lookup.Failed? {
      return false;
    }
    var flag := lookup.flag;
    if flag.Some? {
      isEnabled := flag.value.enabled;
      if flag.value.enabled {
        if context.Some? {
          var isCustomerEnabled := flag.value.customers.None? || context.value.customerId in flag.value.customers.value;
          isEnabled := isEnabled && isCustomerEnabled;
        }
      }
    }
  }
}
