# Feature-flag evaluation and configuration retrieval, in Dafny

This project models the decision and data-shaping core of a small
feature-flag service. The service reads flag definitions from an AWS AppConfig
agent reachable on a loopback address and decides whether a flag is on for a
caller. The modelled parts are:

- **The decision table.** It is shared by `evaluateFlag` and `isFlagEnabled`.
  An absent flag is off. `enabled = false` always wins. With no context, an
  enabled flag is on. With a context, an enabled flag is on when it has no
  `customers` member, or when the customer id is an exact element of that
  list. The table is the pure function `FlagDecision.Decide`.
- **The two evaluators.** Each is a method that starts from "disabled",
  reassigns a local step by step, and makes exactly one lookup.
  `evaluateFlag` passes a rejected lookup on. `isFlagEnabled` turns it into
  `false`, so it fails closed.
- **`getFlags`.** It builds the `flag=k1&flag=k2…` query and the request URL.
  It flattens the keyed response into an ordered list of
  `{key, enabled, attributes}`.
- **`fetchConfig`.** It returns the offline data, the online body, or the
  empty map. It never rejects.

The single-flag lookups (`getFlag`, `findFlagByKey`) are collaborators. They
appear only as `AppConfigAgent.Agent`: a fixed answer per call, plus a log of
the calls made. That log states the "exactly one lookup" property. The agent's
answers to URLs in `getFlags` and `fetchConfig` are a function parameter
`respond`. The application, environment and profile ids and the offline
switch are parameters too.

Where the code and its design description disagree, the model follows the
code:

- An **empty** `customers` list is not treated as an absent one. In
  `!flag.customers || flag.customers.includes(id)`, an empty array is truthy,
  so with a context the flag is off (`FlagDecision.EmptyListIsNotAbsentList`).
- The two evaluators differ only on a lookup that **rejects**. There,
  `evaluateFlag` re-throws (`FlagEvaluation.FailureIsRethrown`) and
  `isFlagEnabled` gives `false` (`FlagEnabled.FailureIsOff`). The `getFlag`
  shown resolves to `null` on a failed request. So with it, `evaluateFlag`
  also fails closed on request errors: an absent flag is off
  (`FlagDecision.AbsentFlagIsOff`).

Files: `wrappers.dfy` (Option/Result), `model.dfy` (data types),
`text.dfy` (`join` and its inverse split), `decision.dfy`, `agent.dfy`,
`evaluate_flag.dfy`, `flag_enabled.dfy`, `config_fetch.dfy`,
`get_flags.dfy`, `local_data.dfy` (offline and fixture profiles),
`scenarios.dfy` (the unit-test cases).

## Model

| member | source | states |
|---|---|---|
| FlagDecision.Admits | src/services/appconfig/evaluate-flag.ts:40 | `isCustomerEnabled`: an absent list admits everyone; an empty list admits nobody; a present list admits a customer iff some element equals its id exactly (`includes`) |
| FlagDecision.Decide | src/services/appconfig/evaluate-flag.ts:30-45 | the decision for an optional flag and optional context; a `true` result implies the flag was found and `enabled` is true |
| FlagDecision.AbsentFlagIsOff | src/services/appconfig/evaluate-flag.ts:25-30 | an absent flag evaluates to `false` in every context |
| FlagDecision.DisabledFlagIsOff | src/services/appconfig/evaluate-flag.ts:32-33 | `enabled = false` gives `false` whatever the customer list and context |
| FlagDecision.NoContextIsOn | src/services/appconfig/evaluate-flag.ts:32-35 | an enabled flag with no context is `true`, even when it has a customer list |
| FlagDecision.NoCustomerListIsOn | src/services/appconfig/evaluate-flag.ts:40 | an enabled flag without a `customers` member is `true` for every context |
| FlagDecision.CustomerListIsExactMembership | src/services/appconfig/evaluate-flag.ts:40-42 | an enabled flag with a list and a context is `true` iff the customer id is an element of the list |
| FlagDecision.EmptyListIsNotAbsentList | src/services/appconfig/flag-enabled.ts:36 | with a context, an empty list gives `false` while an absent list gives `true` |
| FlagDecision.ContextOnlyRestricts | src/services/appconfig/evaluate-flag.ts:32-42 | a context can only turn a result off: on with a context implies on without one |
| AppConfigAgent.Agent.GetFlag | src/services/appconfig/evaluate-flag.ts:28 | one `getFlag` call is appended to the call log and resolves to the agent's answer for it |
| AppConfigAgent.Agent.FindFlagByKey | src/services/appconfig/flag-enabled.ts:24 | one `findFlagByKey` call is appended to the call log and resolves to the agent's answer for it |
| FlagEvaluation.EvaluateOutcome | src/services/appconfig/evaluate-flag.ts:24-51 | rejects exactly when the lookup rejected, with the same error; otherwise resolves to the decision for the found flag |
| FlagEvaluation.FailureIsRethrown | src/services/appconfig/evaluate-flag.ts:48-51 | a failed lookup is passed on as the same failure, not turned into `false` |
| FlagEvaluation.EvaluateFlag | src/services/appconfig/evaluate-flag.ts:15-52 | the step-wise computation makes exactly one `getFlag(configId, flagKey)` call and returns the outcome the decision table gives for its answer |
| FlagEnabled.IsEnabledOutcome | src/services/appconfig/flag-enabled.ts:21-51 | never rejects; `true` only for a found, enabled flag; equals the decision whenever the lookup did not fail |
| FlagEnabled.FailureIsOff | src/services/appconfig/flag-enabled.ts:45-51 | a failed lookup gives `false` |
| FlagEnabled.EvaluatorsAgree | src/services/appconfig/flag-enabled.ts:26-41 | on a non-failing lookup both evaluators give the same boolean; on a failing one `evaluateFlag` re-throws and `isFlagEnabled` gives `false` |
| FlagEnabled.IsFlagEnabled | src/services/appconfig/flag-enabled.ts:14-52 | the step-wise computation makes exactly one `findFlagByKey(flagKey)` call and returns the fail-closed outcome for its answer |
| ConfigFetch.ConfigUrl | src/services/appconfig/config-fetch.ts:36 | the profile URL starts with the agent origin and ends with the profile id |
| ConfigFetch.FetchConfig | src/services/appconfig/config-fetch.ts:17-48 | offline gives the local data; online success gives the body unchanged; a missing body or any failure gives the empty map; the result is always a map |
| ConfigFetch.OfflineMakesNoRequest | src/services/appconfig/config-fetch.ts:28-31 | offline, the result does not depend on any answer from the agent |
| ConfigFetch.OnlineMakesOneRequest | src/services/appconfig/config-fetch.ts:35-37 | online, the result depends only on the answer to the single profile URL |
| ConfigFetch.OnlineResultIsBodyOrEmpty | src/services/appconfig/config-fetch.ts:42-46 | online, the result is the empty map or exactly the body the agent returned |
| ConfigFetch.ConfigUrlHasNoQuery | src/services/appconfig/config-fetch.ts:36 | the profile URL contains no `?` when the ids contain none |
| ConfigFetch.ConfigUrlIsJoinedSegments | src/services/appconfig/config-fetch.ts:36 | the profile URL is the origin and `applications/{app}/environments/{env}/configurations/{profile}` joined by `/` |
| ConfigFetch.ConfigUrlCarriesIds | src/services/appconfig/config-fetch.ts:36 | splitting the profile URL at `/` gives back app, env and profile ids in their places |
| Text.Join | src/services/appconfig/get-flags.ts:26-28 | `join(sep)`: no parts give `""`, one part gives itself, and with more parts the first part is followed by the separator |
| Text.JoinSplit | src/services/appconfig/get-flags.ts:26-28 | joining the pieces of a split gives back the string |
| Text.SplitJoin | src/services/appconfig/get-flags.ts:26-28 | splitting a join of separator-free parts gives back the parts |
| FlagsQuery.FlagQueries | src/services/appconfig/get-flags.ts:25 | one `flag=<key>` parameter per requested key, in request order |
| FlagsQuery.QueryString | src/services/appconfig/get-flags.ts:25-28 | no keys give `""`; otherwise the query starts with `flag=` and the first key; it contains no `?` when no key does |
| FlagsQuery.FlagsUrl | src/services/appconfig/get-flags.ts:26-28 | the request URL is the profile URL, then one `?`, then the query string |
| FlagsQuery.NoKeysEmptyQuery | src/services/appconfig/get-flags.ts:25-28 | no keys give an empty query, so the URL ends in a bare `?` |
| FlagsQuery.QueryStringRoundTrip | src/services/appconfig/get-flags.ts:25-28 | splitting the query at `&` gives exactly `flag=` + each requested key, in order, when no key holds an `&` |
| FlagsQuery.FlagsUrlSplitsAtQuery | src/services/appconfig/get-flags.ts:26-28 | the request URL is the profile URL and the query string, separated by the only `?` |
| FlagsQuery.FlattenEntry | src/services/appconfig/get-flags.ts:38-40 | the key is the member's key; `enabled` is the record's `enabled` (absent if missing); `attributes` is absent iff the record has no other field, and otherwise is the record with exactly `enabled` removed |
| FlagsQuery.RestoreFlattenEntry | src/services/appconfig/get-flags.ts:38-39 | flattening loses nothing: the record is rebuilt from `enabled` and `attributes` |
| FlagsQuery.Flatten | src/services/appconfig/get-flags.ts:37-41 | exactly one flag per response member, in response key order; distinct response keys give distinct output keys |
| FlagsQuery.FlattenRoundTrip | src/services/appconfig/get-flags.ts:37-41 | the whole response, in order, is rebuilt from the flattened list |
| FlagsQuery.GetFlags | src/services/appconfig/get-flags.ts:21-48 | rejects exactly when the request failed, with the same error and no partial list; otherwise resolves to the flattened response body |
| FlagsQuery.MissingBodyGivesNoFlags | src/services/appconfig/get-flags.ts:37 | a response without a body gives the empty list |
| FlagsQuery.RequestedKeysOnlyShapeUrl | src/services/appconfig/get-flags.ts:25-41 | two requests answered alike give the same list: the requested keys neither filter nor reorder the result |
| Scenarios.FixtureDecisions | src/__fixtures__/flags.ts:3-18 | listed customer on, unlisted customer off, disabled flag off even for a listed customer, enabled flag with no context on |
| Scenarios.LocalDecisions | src/data/local/feature-flag.ts:7-21 | the offline profile's customer-gated, global and disabled flags decide as the table says |
| Scenarios.IsFlagEnabledCases | src/services/appconfig/__tests__/flag-enabled.test.ts:13-72 | the five unit-test cases, plus a missing key, evaluate as the tests expect |
| Scenarios.FetchConfigTests | src/services/appconfig/__tests__/config-fetch.test.ts:14-35 | an online success returns the fixture with `feature_flag_enabled` on; a rejection returns the empty map |
| Scenarios.GetFlagsExample | src/services/appconfig/get-flags.ts:37-41 | a two-member response flattens in response order; a bare flag gets no attributes; the customer list stays an attribute |

## Left out

- HTTP handlers: path-parameter defaulting, body casting and status-code mapping are entry-point plumbing outside this core.
- The single-flag fetchers `getFlag`, `findFlagByKey`, `isFlagEnabled` (in `is-flag-enabled.ts`), `listFlags` and `getConfiguration` are thin request wrappers. Their results enter the model only as the agent's `Lookup` answers. As written, `getFlag` and `findFlagByKey` resolve to `null` on a failed request. So `Lookup.Failed` arises only when the lookup itself rejects, which the unit tests arrange with a mock.
- The variant of `findFlagByKey` that looks a key up in the `fetchConfig` map is not part of this model. The shown `findFlagByKey` is an HTTP fetch.
- Network transport, JSON parsing, Promises and console logging are left out. A request is a URL passed to `respond`, or a call recorded in the agent's log.
- The process configuration in `src/utils/config.ts` is left out. The ids and the offline switch are parameters.
- Floating-point attribute values are left out. Numbers are integers.
- FlagsQuery.GetFlags: every response member's value is a record here. Member values that are primitives or arrays are not modelled. This includes the flat answer the agent gives to a single `flag=` parameter (`{enabled, ...attrs}` at top level). The source flattens such values without rejecting: a boolean or number gives `enabled` undefined and no attributes, and a string or array gives index-keyed attributes. Only a `null` or `undefined` member value makes the destructuring reject.
- ConfigFetch.FetchConfig: every falsy body is one case, `Responded(None)`. A truthy body that is not an object (returned as is by the source) is not modelled.
- FlagsQuery.Flatten: the response is taken as its members in the object's key enumeration order. The JavaScript rule that integer-like keys enumerate first is part of that given order and is not modelled separately.
- FlagsQuery.QueryStringRoundTrip: keys are not URL-encoded by the source, so the round trip is stated only for keys without `&`.
- In this revision `AppConfigService` (src/services/appconfig/index.ts:8-12) has no `findFlagByKey` member. So the call at src/services/appconfig/flag-enabled.ts:24 throws a TypeError inside the `try`, and `isFlagEnabled` always resolves to `false`. In the model this is an agent whose every answer is `Failed`, and `FlagEnabled.FailureIsOff` covers it.
- ConfigFetch.FetchConfig: the body type `MultiFlag` holds only `enabled` and `customers` per flag. Other attributes of a fetched flag are not represented, so "the body unchanged" holds within that type. The flag type `Flag` and the attribute record `Record` used by `getFlags` are not related by any function.
