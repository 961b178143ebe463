/** The behaviour the unit tests and the documented scenarios expect,
    checked against the model on the fixture and local data. */
module Scenarios {
  import opened Wrappers
  import opened FeatureFlagModel
  import opened FlagDecision
  import opened AppConfigAgent
  import opened LocalData
  import FlagEnabled
  import FlagEvaluation
  import ConfigFetch
  import FlagsQuery

  /** The four documented evaluation scenarios on the fixture flags. */
  lemma FixtureDecisions()
    ensures Decide(Some(FixtureFlags["feature_flag_enabled_with_customers"]), Some(Context("CUSTOMER1")))
    ensures !Decide(Some(FixtureFlags["feature_flag_enabled_with_customers"]), Some(Context("NOT_IN_LIST")))
    ensures !Decide(Some(FixtureFlags["feature_flag_disabled_with_customers"]), Some(Context("CUSTOMER1")))
    ensures Decide(Some(FixtureFlags["feature_flag_enabled"]), None)
    ensures !Decide(Some(FixtureFlags["feature_flag_disabled"]), None)
  {
  }

  /** The offline profile: a listed customer gets the customer-gated flag, an
      unlisted one does not, and the disabled flag is off for everyone. */
  lemma LocalDecisions(customerId: string)
    ensures Decide(Some(LocalFeatureFlags["release-api-feature-customer"]), Some(Context("C000001")))
    ensures !Decide(Some(LocalFeatureFlags["release-api-feature-customer"]), Some(Context("C000003")))
    ensures Decide(Some(LocalFeatureFlags["release-api-feature"]), Some(Context(customerId)))
    ensures !Decide(Some(LocalFeatureFlags["release-feature-four"]), Some(Context(customerId)))
  {
  }

  /** The fixture's answer to a lookup: the flag stored under the key, if any. */
  function FixtureLookup(call: Call): (lookup: Lookup)
    ensures lookup.Found?
  {
    Found(if call.flagKey in FixtureFlags then Some(FixtureFlags[call.flagKey]) else None)
  }

  /** The `isFlagEnabled` unit-test cases, on what the fixture lookup gives. */
  lemma IsFlagEnabledCases()
    ensures FlagEnabled.IsEnabledOutcome(FixtureLookup(FindFlagByKeyCall("feature_flag_enabled")), None)
    ensures FlagEnabled.IsEnabledOutcome(FixtureLookup(FindFlagByKeyCall("feature_flag_enabled_with_customers")),
                                         Some(Context("CUSTOMER1")))
    ensures !FlagEnabled.IsEnabledOutcome(FixtureLookup(FindFlagByKeyCall("feature_flag_enabled_with_customers")),
                                          Some(Context("NOT_IN_LIST")))
    ensures !FlagEnabled.IsEnabledOutcome(FixtureLookup(FindFlagByKeyCall("feature_flag_disabled")), None)
    ensures !FlagEnabled.IsEnabledOutcome(FixtureLookup(FindFlagByKeyCall("feature_flag_disabled_with_customers")),
                                          Some(Context("CUSTOMER1")))
    ensures !FlagEnabled.IsEnabledOutcome(FixtureLookup(FindFlagByKeyCall("flag_key_not_found")), None)
  {
  }

  /** `isFlagEnabled` as the unit tests drive it: each call makes exactly one
      lookup, and a rejected lookup gives `false`. */
  method IsFlagEnabledTests()
  {
    var agent := new Agent(FixtureLookup);
    IsFlagEnabledCases();
    var on := FlagEnabled.IsFlagEnabled(agent, "feature_flag_enabled_with_customers", Some(Context("CUSTOMER1")));
    assert on && agent.calls == [FindFlagByKeyCall("feature_flag_enabled_with_customers")];

    var failing := new Agent((call: Call) => Failed(FetchError("mock error")));
    on := FlagEnabled.IsFlagEnabled(failing, "feature_flag_enabled", None);
    assert !on && failing.calls == [FindFlagByKeyCall("feature_flag_enabled")];
  }

  /** `evaluateFlag` on the same data: one `getFlag` call per evaluation, and
      a rejection is passed on. */
  method EvaluateFlagTests()
  {
    var agent := new Agent(FixtureLookup);
    var r := FlagEvaluation.EvaluateFlag(agent, "profile", "feature_flag_enabled_with_customers", Some(Context("CUSTOMER2")));
    assert r == Success(true);
    assert agent.calls == [GetFlagCall("profile", "feature_flag_enabled_with_customers")];

    var failing := new Agent((call: Call) => Failed(FetchError("mock error")));
    r := FlagEvaluation.EvaluateFlag(failing, "profile", "feature_flag_enabled", None);
    assert r == Failure(FetchError("mock error"));
  }

  /** The `fetchConfig` unit tests: an online success yields the body, a
      rejection yields the empty map. */
  lemma FetchConfigTests(ids: AppConfigIds)
    ensures var r := ConfigFetch.FetchConfig(ids, false, (url: string) => ConfigFetch.Responded(Some(FixtureFlags)));
            "feature_flag_enabled" in r && r["feature_flag_enabled"].enabled
    ensures ConfigFetch.FetchConfig(ids, false, (url: string) => ConfigFetch.RequestFailed(FetchError("mock error"))) == map[]
    ensures ConfigFetch.FetchConfig(ids, true, (url: string) => ConfigFetch.RequestFailed(FetchError("mock error"))) == LocalFeatureFlags
  {
  }

  /** A multi-flag response: the bare flag gets no attributes, the other one
      keeps its customer list as an attribute, and response order is kept. */
  lemma GetFlagsExample(ids: AppConfigIds)
    ensures var body := [("feature_flag_enabled", map["enabled" := Bool(true)]),
                         ("feature_flag_enabled_with_customers",
                          map["enabled" := Bool(true), "customers" := Strs(["CUSTOMER1", "CUSTOMER2"])])];
            FlagsQuery.GetFlags(ids, ["feature_flag_enabled_with_customers", "feature_flag_enabled"],
                                (url: string) => FlagsQuery.FlagsResponse(Some(body)))
            == Success([FeatureFlag("feature_flag_enabled", Some(Bool(true)), None),
                        FeatureFlag("feature_flag_enabled_with_customers", Some(Bool(true)),
                                    Some(map["customers" := Strs(["CUSTOMER1", "CUSTOMER2"])]))])
  {
    var bare: Record := map["enabled" := Bool(true)];
    var attrs: Record := map["customers" := Strs(["CUSTOMER1", "CUSTOMER2"])];
    var rec: Record := map["enabled" := Bool(true), "customers" := Strs(["CUSTOMER1", "CUSTOMER2"])];
    var f0 := FlagsQuery.FlattenEntry("feature_flag_enabled", bare);
    assert f0 == FeatureFlag("feature_flag_enabled", Some(Bool(true)), None);
    var f1 := FlagsQuery.FlattenEntry("feature_flag_enabled_with_customers", rec);
    assert "customers" in rec;
    assert f1.attributes.Some?;
    assert f1.attributes.value.Keys == attrs.Keys;
    assert f1.attributes.value == attrs;
    assert FlagsQuery.Flatten([("feature_flag_enabled", bare), ("feature_flag_enabled_with_customers", rec)]) == [f0, f1];
  }
}
