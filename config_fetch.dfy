/** `fetchConfig()`: the whole configuration profile, from local data when
    offline and from the configuration agent otherwise; it always resolves
    to a map and never rejects. */
module ConfigFetch {
  import opened Wrappers
  import opened FeatureFlagModel
  import opened Text
  import LocalData

  /** The configuration agent's loopback address. */
  const AgentOrigin: string := "http://localhost:2772"

  /** The profile's URL at the agent; it carries no query string. */
  function ConfigUrl(ids: AppConfigIds): (url: string)
    ensures |url| > |AgentOrigin| + |ids.profile| && url[..|AgentOrigin|] == AgentOrigin
    ensures url[|url| - |ids.profile|..] == ids.profile
  {
    AgentOrigin + "/" + "applications" + "/" + ids.app + "/" + "environments" + "/" + ids.env
      + "/" + "configurations" + "/" + ids.profile
  }

  /** How the agent request settled: a body (`None` for a missing or falsy
      one) or a rejection. */
  datatype ConfigOutcome = Responded(data: Option<MultiFlag>) | RequestFailed(error: FetchError)

  /** The map `fetchConfig` resolves to. `respond` is the agent's answer to a
      request for a URL. */
  function FetchConfig(ids: AppConfigIds, offline: bool, respond: string -> ConfigOutcome): (r: MultiFlag)
    ensures offline ==> r == LocalData.LocalFeatureFlags
    ensures !offline && respond(ConfigUrl(ids)).Responded? && respond(ConfigUrl(ids)).data.Some? ==>
              r == respond(ConfigUrl(ids)).data.value
    ensures !offline && respond(ConfigUrl(ids)) == Responded(None) ==> r == map[]
    ensures !offline && respond(ConfigUrl(ids)).RequestFailed? ==> r == map[]
  {
    if offline then LocalData.LocalFeatureFlags
    else
      match respond(ConfigUrl(ids))
      case Responded(data) => data.GetOr(map[])
      case RequestFailed(_) => map[]
  }

  /** Offline, no request is made: the agent's answers do not matter. */
  lemma OfflineMakesNoRequest(ids: AppConfigIds, respond: string -> ConfigOutcome, other: string -> ConfigOutcome)
    ensures FetchConfig(ids, true, respond) == FetchConfig(ids, true, other)
  {
  }

  /** Online, at most one request is made, for the profile URL: the result
      depends on the answer to that URL alone. */
  lemma OnlineMakesOneRequest(ids: AppConfigIds, respond: string -> ConfigOutcome, other: string -> ConfigOutcome)
    requires respond(ConfigUrl(ids)) == other(ConfigUrl(ids))
    ensures FetchConfig(ids, false, respond) == FetchConfig(ids, false, other)
  {
  }

  /** Online, the result is either the body unchanged or the empty map,
      never anything else. */
  lemma OnlineResultIsBodyOrEmpty(ids: AppConfigIds, respond: string -> ConfigOutcome)
    ensures var r := FetchConfig(ids, false, respond);
            r == map[] || respond(ConfigUrl(ids)) == Responded(Some(r))
  {
  }

  /** The profile URL has no query string when the identifiers have no `?`. */
  lemma ConfigUrlHasNoQuery(ids: AppConfigIds)
    requires '?' !in ids.app && '?' !in ids.env && '?' !in ids.profile
    ensures '?' !in ConfigUrl(ids)
  {
  }

  /** The origin's segments when split at `/`. */
  const OriginSegments: seq<string> := ["http:", "", "localhost:2772"]

  /** The profile URL's path segments, in order. */
  function Segments(ids: AppConfigIds): (segments: seq<string>)
    ensures segments == OriginSegments + ["applications", ids.app, "environments", ids.env, "configurations", ids.profile]
  {
    OriginSegments + ["applications"] + [ids.app] + ["environments"] + [ids.env] + ["configurations"] + [ids.profile]
  }

  /** The origin is its segments joined by `/`. */
  lemma OriginIsJoined()
    ensures Join(OriginSegments, '/') == AgentOrigin
  {
  }

  /** The profile URL is its segments joined by `/`. */
  lemma ConfigUrlIsJoinedSegments(ids: AppConfigIds)
    ensures Join(Segments(ids), '/') == ConfigUrl(ids)
  {
    OriginIsJoined();
    var s1 := OriginSegments + ["applications"];
    JoinSnoc(OriginSegments, "applications", '/');
    var s2 := s1 + [ids.app];
    JoinSnoc(s1, ids.app, '/');
    var s3 := s2 + ["environments"];
    JoinSnoc(s2, "environments", '/');
    var s4 := s3 + [ids.env];
    JoinSnoc(s3, ids.env, '/');
    var s5 := s4 + ["configurations"];
    JoinSnoc(s4, "configurations", '/');
    JoinSnoc(s5, ids.profile, '/');
  }

  /** The profile URL's path segments are the three identifiers, each in its
      place, when none of them holds a `/`. */
  lemma ConfigUrlCarriesIds(ids: AppConfigIds)
    requires '/' !in ids.app && '/' !in ids.env && '/' !in ids.profile
    ensures Split(ConfigUrl(ids), '/') == Segments(ids)
  {
    ConfigUrlIsJoinedSegments(ids);
    SplitJoin(Segments(ids), '/');
  }
}
