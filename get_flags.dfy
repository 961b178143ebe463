/** `getFlags(flagKeys)`: request several flags in one query and flatten the
    keyed response into a list of `{key, enabled, attributes}`. */
module FlagsQuery {
  import opened Wrappers
  import opened FeatureFlagModel
  import opened Text
  import ConfigFetch

  /** One `flag=<key>` query parameter per requested key, in request order. */
  function FlagQueries(flagKeys: seq<string>): (queries: seq<string>)
    ensures |queries| == |flagKeys|
    ensures forall i :: 0 <= i < |flagKeys| ==> queries[i] == "flag=" + flagKeys[i]
  {
    seq(|flagKeys|, i requires 0 <= i < |flagKeys| => "flag=" + flagKeys[i])
  }

  /** The query string: the parameters joined by `&`. */
  function QueryString(flagKeys: seq<string>): (query: string)
    ensures |flagKeys| == 0 ==> query == ""
    ensures |flagKeys| >= 1 ==> |query| >= 5 + |flagKeys[0]| && query[..5 + |flagKeys[0]|] == "flag=" + flagKeys[0]
    ensures (forall i :: 0 <= i < |flagKeys| ==> '?' !in flagKeys[i]) ==> '?' !in query
  {
    var queries := FlagQueries(flagKeys);
    assert (forall i :: 0 <= i < |flagKeys| ==> '?' !in flagKeys[i]) ==> '?' !in Join(queries, '&') by {
      if forall i :: 0 <= i < |flagKeys| ==> '?' !in flagKeys[i] {
        forall i | 0 <= i < |queries|
          ensures '?' !in queries[i]
        {
          assert queries[i] == "flag=" + flagKeys[i];
        }
        JoinAvoids(queries, '&', '?');
      }
    }
    Join(queries, '&')
  }

  /** The request URL: the profile URL, `?`, then the query string. */
  function FlagsUrl(ids: AppConfigIds, flagKeys: seq<string>): (url: string)
    ensures var base := ConfigFetch.ConfigUrl(ids);
            && |url| == |base| + 1 + |QueryString(flagKeys)|
            && url[..|base|] == base
            && url[|base|] == '?'
            && url[|base| + 1..] == QueryString(flagKeys)
  {
    ConfigFetch.ConfigUrl(ids) + "?" + QueryString(flagKeys)
  }

  /** No keys give an empty query, so the URL ends in a bare `?`. */
  lemma NoKeysEmptyQuery(ids: AppConfigIds)
    ensures QueryString([]) == ""
    ensures FlagsUrl(ids, []) == ConfigFetch.ConfigUrl(ids) + "?"
  {
  }

  /** Splitting the query string at `&` gives back one `flag=<key>`
      parameter per requested key, in request order, provided no key holds
      an `&` (keys are not URL-encoded). */
  lemma QueryStringRoundTrip(flagKeys: seq<string>)
    requires |flagKeys| >= 1
    requires forall i :: 0 <= i < |flagKeys| ==> '&' !in flagKeys[i]
    ensures var params := Split(QueryString(flagKeys), '&');
            |params| == |flagKeys| &&
            forall i :: 0 <= i < |flagKeys| ==> params[i] == "flag=" + flagKeys[i]
  {
    var queries := FlagQueries(flagKeys);
    forall i | 0 <= i < |queries|
      ensures '&' !in queries[i]
    {
      assert queries[i] == "flag=" + flagKeys[i];
    }
    SplitJoin(queries, '&');
  }

  /** A character that is neither the separator nor in any part is not in
      their join. */
  lemma {:induction false} JoinAvoids(parts: seq<string>, sep: char, c: char)
    requires c != sep
    requires forall i :: 0 <= i < |parts| ==> c !in parts[i]
    ensures c !in Join(parts, sep)
  {
    if |parts| > 1 {
      JoinAvoids(parts[1..], sep, c);
    }
  }

  /** The URL splits at `?` into the profile URL and the query string, when
      neither the identifiers nor the keys hold a `?`. */
  lemma FlagsUrlSplitsAtQuery(ids: AppConfigIds, flagKeys: seq<string>)
    requires '?' !in ids.app && '?' !in ids.env && '?' !in ids.profile
    requires forall i :: 0 <= i < |flagKeys| ==> '?' !in flagKeys[i]
    ensures Split(FlagsUrl(ids, flagKeys), '?') == [ConfigFetch.ConfigUrl(ids), QueryString(flagKeys)]
  {
    var queries := FlagQueries(flagKeys);
    forall i | 0 <= i < |queries|
      ensures '?' !in queries[i]
    {
      assert queries[i] == "flag=" + flagKeys[i];
    }
    JoinAvoids(queries, '&', '?');
    ConfigFetch.ConfigUrlHasNoQuery(ids);
    var url, query := ConfigFetch.ConfigUrl(ids), QueryString(flagKeys);
    JoinCons(url, [query], '?');
    SplitJoin([url, query], '?');
  }

  /** Flattens one `key: record` member: `enabled` is taken out, and what
      remains becomes `attributes`, or nothing when nothing remains. */
  function FlattenEntry(key: string, record: Record): (flag: FeatureFlag)
    ensures flag.key == key
    ensures flag.enabled == (if "enabled" in record then Some(record["enabled"]) else None)
    ensures flag.attributes.None? <==> record.Keys <= {"enabled"}
    ensures flag.attributes.Some? ==>
              && "enabled" !in flag.attributes.value
              && flag.attributes.value.Keys == record.Keys - {"enabled"}
              && forall k :: k in flag.attributes.value ==> flag.attributes.value[k] == record[k]
  {
    var rest := record - {"enabled"};
    assert rest.Keys == record.Keys - {"enabled"};
    assert |rest| == 0 <==> rest.Keys == {} by {
      if rest.Keys == {} { assert rest == map[]; }
    }
    FeatureFlag(key, if "enabled" in record then Some(record["enabled"]) else None,
                if |rest| == 0 then None else Some(rest))
  }

  /** The inverse of `FlattenEntry`: put `enabled` back among the
      attributes. */
  function Restore(flag: FeatureFlag): (entry: Entry)
    ensures entry.0 == flag.key
  {
    var enabled: Record := if flag.enabled.Some? then map["enabled" := flag.enabled.value] else map[];
    (flag.key, flag.attributes.GetOr(map[]) + enabled)
  }

  /** Flattening loses nothing: the record can be rebuilt from the flag. */
  lemma RestoreFlattenEntry(key: string, record: Record)
    ensures Restore(FlattenEntry(key, record)) == (key, record)
  {
    var flag := FlattenEntry(key, record);
    var rebuilt := Restore(flag).1;
    assert rebuilt.Keys == record.Keys;
    forall k | k in record
      ensures rebuilt[k] == record[k]
    {
    }
    assert rebuilt == record;
  }

  /** Whether the members' keys are pairwise distinct, as an object's are. */
  predicate DistinctKeys(entries: seq<Entry>)
  {
    forall i, j :: 0 <= i < j < |entries| ==> entries[i].0 != entries[j].0
  }

  /** Whether the flags' keys are pairwise distinct. */
  predicate DistinctFlagKeys(flags: seq<FeatureFlag>)
  {
    forall i, j :: 0 <= i < j < |flags| ==> flags[i].key != flags[j].key
  }

  /** One flattened flag per response member, in the response's key order;
      the requested keys play no part. */
  function Flatten(entries: seq<Entry>): (flags: seq<FeatureFlag>)
    ensures |flags| == |entries|
    ensures forall i :: 0 <= i < |entries| ==> flags[i] == FlattenEntry(entries[i].0, entries[i].1)
    ensures DistinctKeys(entries) ==> DistinctFlagKeys(flags)
  {
    seq(|entries|, i requires 0 <= i < |entries| => FlattenEntry(entries[i].0, entries[i].1))
  }

  /** Rebuilds the response members from the flattened list. */
  function Unflatten(flags: seq<FeatureFlag>): (entries: seq<Entry>)
    ensures |entries| == |flags|
  {
    seq(|flags|, i requires 0 <= i < |flags| => Restore(flags[i]))
  }

  /** The flattened list holds the whole response, in order. */
  lemma FlattenRoundTrip(entries: seq<Entry>)
    ensures Unflatten(Flatten(entries)) == entries
  {
    var back := Unflatten(Flatten(entries));
    forall i | 0 <= i < |entries|
      ensures back[i] == entries[i]
    {
      RestoreFlattenEntry(entries[i].0, entries[i].1);
    }
  }

  /** How the multi-flag request settled: a body (`None` for a missing one,
      whose key list is empty) or a rejection. */
  datatype FlagsOutcome = FlagsResponse(body: Option<seq<Entry>>) | FlagsFailed(error: FetchError)

  /** What `getFlags` resolves or rejects with. `respond` is the agent's
      answer to a request for a URL. */
  function GetFlags(ids: AppConfigIds, flagKeys: seq<string>, respond: string -> FlagsOutcome)
    : (r: Result<seq<FeatureFlag>, FetchError>)
    ensures r.Failure? <==> respond(FlagsUrl(ids, flagKeys)).FlagsFailed?
    ensures r.Failure? ==> r.error == respond(FlagsUrl(ids, flagKeys)).error
    ensures r.Success? ==> r.value == Flatten(respond(FlagsUrl(ids, flagKeys)).body.GetOr([]))
  {
    match respond(FlagsUrl(ids, flagKeys))
    case FlagsFailed(e) => Failure(e)
    case FlagsResponse(body) => Success(Flatten(body.GetOr([])))
  }

  /** A missing body gives an empty list. */
  lemma MissingBodyGivesNoFlags(ids: AppConfigIds, flagKeys: seq<string>, respond: string -> FlagsOutcome)
    requires respond(FlagsUrl(ids, flagKeys)) == FlagsResponse(None)
    ensures GetFlags(ids, flagKeys, respond) == Success([])
  {
  }

  /** The requested keys shape only the URL: two requests answered alike
      give the same list, so the keys neither filter nor reorder it. */
  lemma RequestedKeysOnlyShapeUrl(ids: AppConfigIds, keys1: seq<string>, keys2: seq<string>,
                                  respond: string -> FlagsOutcome)
    requires respond(FlagsUrl(ids, keys1)) == respond(FlagsUrl(ids, keys2))
    ensures GetFlags(ids, keys1, respond) == GetFlags(ids, keys2, respond)
  {
  }
}
