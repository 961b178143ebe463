/** The values the feature-flag service works with: a stored flag, the
    evaluation context, a configuration profile and the flattened flag that
    the multi-flag query returns. */
module FeatureFlagModel {
  import opened Wrappers

  /** A stored flag as the configuration profile holds it. `customers` is
      optional in the document, and an absent list is a different value from
      an empty one. */
  datatype Flag = Flag(enabled: bool, customers: Option<seq<string>>)

  /** The evaluation context: exactly one attribute, the caller's customer id. */
  datatype Context = Context(customerId: string)

  /** A configuration profile: flag key to flag definition. */
  type MultiFlag = map<string, Flag>

  /** A JSON attribute value as observed in flag documents (numbers are
      integers here). */
  datatype Value =
    | Str(s: string)
    | Num(n: int)
    | Bool(b: bool)
    | Strs(ss: seq<string>)
    | Nums(ns: seq<int>)

  /** One flag object of a multi-flag response: `enabled` mixed with any
      extra attributes at the same level. */
  type Record = map<string, Value>

  /** One `key: record` member of a multi-flag response. */
  type Entry = (string, Record)

  /** The canonical flattened flag. `enabled` is `None` where the record had
      no `enabled` member (JavaScript `undefined`); `attributes` is `None`
      where nothing is left once `enabled` is taken out. */
  datatype FeatureFlag = FeatureFlag(key: string, enabled: Option<Value>, attributes: Option<Record>)

  /** The error a failed request rejects with; it is passed on unchanged
      wherever the source re-throws. */
  datatype FetchError = FetchError(message: string)

  /** Application, environment and configuration-profile identifiers. */
  datatype AppConfigIds = AppConfigIds(app: string, env: string, profile: string)
}
