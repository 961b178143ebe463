/** The single-flag lookups the evaluators await (`getFlag` and
    `findFlagByKey`), seen from outside: each call is recorded in `calls`,
    and what it resolves to is the agent's answer to that call. */
module AppConfigAgent {
  import opened Wrappers
  import opened FeatureFlagModel

  /** A call to one of the two lookups. */
  datatype Call =
    | GetFlagCall(configId: string, flagKey: string)
    | FindFlagByKeyCall(flagKey: string)

  /** What an awaited lookup gives: a flag or nothing (`null`/`undefined`),
      or a rejection. */
  datatype Lookup = Found(flag: Option<Flag>) | Failed(error: FetchError)

  class Agent {
    /** The answer the remote store gives to each call. */
    const answer: Call -> Lookup
    /** Every call made so far, in order. */
    var calls: seq<Call>

    constructor (answer: Call -> Lookup)
      ensures this.answer == answer && calls == []
    {
      this.answer := answer;
      calls := [];
    }

    /** `AppConfigService.getFlag(configId, flagKey)`. */
    method GetFlag(configId: string, flagKey: string) returns (lookup: Lookup)
      modifies this`calls
      ensures calls == old(calls) + [GetFlagCall(configId, flagKey)]
      ensures lookup == answer(GetFlagCall(configId, flagKey))
    {
      calls := calls + [GetFlagCall(configId, flagKey)];
      lookup := answer(GetFlagCall(configId, flagKey));
    }

    /** `AppConfigService.findFlagByKey(flagKey)`. */
    method FindFlagByKey(flagKey: string) returns (lookup: Lookup)
      modifies this`calls
      ensures calls == old(calls) + [FindFlagByKeyCall(flagKey)]
      ensures lookup == answer(FindFlagByKeyCall(flagKey))
    {
      calls := calls + [FindFlagByKeyCall(flagKey)];
      lookup := answer(FindFlagByKeyCall(flagKey));
    }
  }
}
