/** Static flag data: the profile served in offline mode and the unit-test
    fixture profile. */
module LocalData {
  import opened Wrappers
  import opened FeatureFlagModel

  /** The profile returned instead of a remote fetch in offline mode. */
  const LocalFeatureFlags: MultiFlag := map[
    "release-api-feature" := Flag(true, None),
    "release-api-feature-customer" := Flag(true, Some(["C000001", "C000002"])),
    "release-feature-three" := Flag(true, None),
    "release-feature-four" := Flag(false, None)
  ]

  /** The fixture profile the unit tests resolve their fetches to. */
  const FixtureFlags: MultiFlag := map[
    "feature_flag_enabled" := Flag(true, None),
    "feature_flag_enabled_with_customers" := Flag(true, Some(["CUSTOMER1", "CUSTOMER2"])),
    "feature_flag_disabled" := Flag(false, None),
    "feature_flag_disabled_with_customers" := Flag(false, Some(["CUSTOMER1", "CUSTOMER2"]))
  ]
}
