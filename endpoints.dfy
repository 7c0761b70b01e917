/**
  The endpoint resolver (WebServiceEndPoints.swift): a read-only walk over an
  untyped, JSON-like document that turns a logical API name into a host or
  an API path, with a global gateway that can replace every overridable host.
 */
module EndPoints {
  import opened Wrappers
  import opened EndPointsErrors

  /** A value of the endpoint document: a string, a Bool, an object, or anything else. */
  datatype JValue = JStr(s: string) | JBool(b: bool) | JObj(fields: map<string, JValue>) | JOther

  /**
    `WebServiceEndPoints`: the document, held in an immutable field that
    `init(endPoints:)` stores verbatim (the datatype constructor).
   */
  datatype WebServiceEndPoints = WebServiceEndPoints(endPoints: map<string, JValue>)

  /**
    The string reached by following `path` from `m`: every step but the last
    must find an object, the last must find a string.
   */
  function StringAt(m: map<string, JValue>, path: seq<string>): Option<string>
    requires |path| > 0
    decreases |path|
  {
    if path[0] !in m then None
    else if |path| == 1 then
      (match m[path[0]] case JStr(s) => Some(s) case _ => None)
    else
      (match m[path[0]] case JObj(inner) => StringAt(inner, path[1..]) case _ => None)
  }

  /** A three-step walk finds `v` exactly when the two objects and the final string are there. */
  lemma {:induction false} StringAtThreeSteps(m: map<string, JValue>, k0: string, k1: string, k2: string, v: string)
    ensures StringAt(m, [k0, k1, k2]) == Some(v) <==>
      && k0 in m && m[k0].JObj?
      && k1 in m[k0].fields && m[k0].fields[k1].JObj?
      && k2 in m[k0].fields[k1].fields && m[k0].fields[k1].fields[k2] == JStr(v)
  {
    assert [k0, k1, k2][1..] == [k1, k2];
    assert [k1, k2][1..] == [k2];
    if k0 in m && m[k0].JObj? {
      var m1 := m[k0].fields;
      assert StringAt(m, [k0, k1, k2]) == StringAt(m1, [k1, k2]);
      if k1 in m1 && m1[k1].JObj? {
        assert StringAt(m1, [k1, k2]) == StringAt(m1[k1].fields, [k2]);
      }
    }
  }

  /** `globalAPIGatewayEndPoint()`: the string at `globals.apiGateway`. */
  function GlobalAPIGatewayEndPoint(t: WebServiceEndPoints): (r: Result<string, EndPointsError>)
    ensures r.Failure? ==> r.error == EmptyOrCorruptGlobalAPIGatewayEndPoint
    ensures forall g :: r == Success(g) <==>
      && "globals" in t.endPoints && t.endPoints["globals"].JObj?
      && "apiGateway" in t.endPoints["globals"].fields
      && t.endPoints["globals"].fields["apiGateway"] == JStr(g)
  {
    match StringAt(t.endPoints, ["globals", "apiGateway"])
    case Some(endPoint) => Success(endPoint)
    case None => Failure(EmptyOrCorruptGlobalAPIGatewayEndPoint)
  }

  /** `useGlobalGatewayEndPoint()`: the Bool at the top-level key `useGlobalGatewayEndPoint`. */
  function UseGlobalGatewayEndPoint(t: WebServiceEndPoints): (r: Result<bool, EndPointsError>)
    ensures r.Failure? ==> r.error == EmptyOrCorruptUseGlobalGatewayEndPointFlag
    ensures forall f :: r == Success(f) <==>
      "useGlobalGatewayEndPoint" in t.endPoints && t.endPoints["useGlobalGatewayEndPoint"] == JBool(f)
  {
    if "useGlobalGatewayEndPoint" in t.endPoints && t.endPoints["useGlobalGatewayEndPoint"].JBool? then
      Success(t.endPoints["useGlobalGatewayEndPoint"].b)
    else
      Failure(EmptyOrCorruptUseGlobalGatewayEndPointFlag)
  }

  /** The logical lookups of WebServiceEndPoints, one per Swift method. */
  datatype Api =
    | AuthNTokenEndPoint | AuthNRefreshEndPoint | AuthNAccessEndPoint | AuthNLogoutEndPoint
    | AuthNTokenAPI | AuthNRefreshAPI | AuthNAccessAPI | AuthNLogoutAPI
    | AuthZChannelEndPoint | AuthZContentEndPoint | AuthZHeartBeatEndPoint | AuthZSubscriptionEndPoint
    | AuthZHeartBeatAPI | AuthZChannelAPI | AuthZContentAPI | AuthZSubscriptionAPI
    | XcmsHostCollection | XcmsHostSearch | XcmsHostMetadata
    | XcmsAPIGenericItems | XcmsAPIContinueWatching | XcmsAPILiveStreamingChannels | XcmsAPISearch
    | XcmsAPILastLiveStreamingChannelWatched | XcmsAPIProgramDetails | XcmsAPIOnAirProgramByChannel
    | XcmsAPIGuideChannels | XcmsAPIPausePoint
    | DeviceLookUpEndPoint | XcmsUserProfileEndPoint | XcmsUserProfileAPI | XcmsAPIGuideSchedule

  /** The fixed key path each lookup walks: three keys under one of the four sections. */
  function KeyPath(a: Api): (p: seq<string>)
    ensures |p| == 3
    ensures p[0] in {"authentication", "authorization", "xcms", "dms"}
  {
    match a
    case AuthNTokenEndPoint => ["authentication", "authNToken", "host"]
    case AuthNRefreshEndPoint => ["authentication", "authNRefresh", "host"]
    case AuthNAccessEndPoint => ["authentication", "authNAccess", "host"]
    case AuthNLogoutEndPoint => ["authentication", "authNLogout", "host"]
    case AuthNTokenAPI => ["authentication", "authNToken", "api"]
    case AuthNRefreshAPI => ["authentication", "authNRefresh", "api"]
    case AuthNAccessAPI => ["authentication", "authNAccess", "api"]
    case AuthNLogoutAPI => ["authentication", "authNLogout", "api"]
    case AuthZChannelEndPoint => ["authorization", "channel", "host"]
    case AuthZContentEndPoint => ["authorization", "content", "host"]
    case AuthZHeartBeatEndPoint => ["authorization", "heartbeat", "host"]
    case AuthZSubscriptionEndPoint => ["authorization", "subscription", "host"]
    case AuthZHeartBeatAPI => ["authorization", "heartbeat", "api"]
    case AuthZChannelAPI => ["authorization", "channel", "api"]
    case AuthZContentAPI => ["authorization", "content", "api"]
    case AuthZSubscriptionAPI => ["authorization", "subscription", "api"]
    case XcmsHostCollection => ["xcms", "host", "collection"]
    case XcmsHostSearch => ["xcms", "host", "search"]
    case XcmsHostMetadata => ["xcms", "host", "metadata"]
    case XcmsAPIGenericItems => ["xcms", "api", "genericItems"]
    case XcmsAPIContinueWatching => ["xcms", "api", "continueWatching"]
    case XcmsAPILiveStreamingChannels => ["xcms", "api", "liveStreamingChannels"]
    case XcmsAPISearch => ["xcms", "api", "search"]
    case XcmsAPILastLiveStreamingChannelWatched => ["xcms", "api", "lastLiveStreamingChannelWatched"]
    case XcmsAPIProgramDetails => ["xcms", "api", "programDetails"]
    case XcmsAPIOnAirProgramByChannel => ["xcms", "api", "onAirProgramByChannel"]
    case XcmsAPIGuideChannels => ["xcms", "api", "guideChannels"]
    case XcmsAPIPausePoint => ["xcms", "api", "pausePoint"]
    case DeviceLookUpEndPoint => ["dms", "deviceLookup", "api"]
    case XcmsUserProfileEndPoint => ["xcms", "host", "userProfile"]
    case XcmsUserProfileAPI => ["xcms", "api", "profileSearchService"]
    case XcmsAPIGuideSchedule => ["xcms", "api", "guideSchedule"]
  }

  /** The error each lookup throws when its path is missing or mistyped. */
  function ErrorOf(a: Api): EndPointsError
  {
    match a
    case AuthNTokenEndPoint => EmptyOrCorruptAuthNNewTokenEndPoint
    case AuthNRefreshEndPoint => EmptyOrCorruptAuthNRefreshTokenEndPoint
    case AuthNAccessEndPoint => EmptyOrCorruptAuthNAccessEndPoint
    case AuthNLogoutEndPoint => EmptyOrCorruptAuthNLogoutEndPoint
    case AuthNTokenAPI => EmptyOrCorruptAuthNNewTokenAPI
    case AuthNRefreshAPI => EmptyOrCorruptAuthNRefreshTokenAPI
    case AuthNAccessAPI => EmptyOrCorruptAuthNAccessAPI
    case AuthNLogoutAPI => EmptyOrCorruptAuthNLogoutAPI
    case AuthZChannelEndPoint => EmptyOrCorruptAuthZChannelEndpoint
    case AuthZContentEndPoint => EmptyOrCorruptAuthZContentEndpoint
    case AuthZHeartBeatEndPoint => EmptyOrCorruptAuthZHeartBeatEndpoint
    case AuthZSubscriptionEndPoint => EmptyOrCorruptAuthZSubscriptionEndpoint
    case AuthZHeartBeatAPI => EmptyOrCorruptAuthZHeartBeatAPI
    case AuthZChannelAPI => EmptyOrCorruptAuthZChannelAPI
    case AuthZContentAPI => EmptyOrCorruptAuthZContentAPI
    case AuthZSubscriptionAPI => EmptyOrCorruptAuthZSubscriptionAPI
    case XcmsHostCollection => EmptyOrCorruptCollectionEndPoint
    case XcmsHostSearch => EmptyOrCorruptSearchEndPoint
    case XcmsHostMetadata => EmptyOrCorruptMetadataEndPoint
    case XcmsAPIGenericItems => EmptyOrCorruptGenericItemsAPI
    case XcmsAPIContinueWatching => EmptyOrCorruptContinueWatchingAPI
    case XcmsAPILiveStreamingChannels => EmptyOrCorruptLiveStreamingChannelsAPI
    case XcmsAPISearch => EmptyOrCorruptSearchAPI
    case XcmsAPILastLiveStreamingChannelWatched => EmptyOrCorruptLastLiveStreamingChannelWatchedAPI
    case XcmsAPIProgramDetails => EmptyOrCorruptProgramDetailsAPI
    case XcmsAPIOnAirProgramByChannel => EmptyOrCorruptOnAirProgramByChannelAPI
    case XcmsAPIGuideChannels => EmptyOrCorruptGuidedChannelsAPI
    case XcmsAPIPausePoint => EmptyOrCorruptPausePointAPI
    case DeviceLookUpEndPoint => EmptyOrCorruptDeviceManagementServiceAPI
    case XcmsUserProfileEndPoint => EmptyOrCorruptSearchEndPoint
    case XcmsUserProfileAPI => EmptyOrCorruptSearchEndPoint
    case XcmsAPIGuideSchedule => EmptyOrCorruptDeviceManagementServiceAPI
  }

  /**
    Whether the lookup consults the global gateway after finding its host;
    only lookups that read a host path do.
   */
  predicate GatewayOverride(a: Api)
    ensures GatewayOverride(a) ==> IsHostPath(KeyPath(a))
  {
    || a.AuthNTokenEndPoint? || a.AuthNRefreshEndPoint? || a.AuthNAccessEndPoint? || a.AuthNLogoutEndPoint?
    || a.AuthZChannelEndPoint? || a.AuthZContentEndPoint? || a.AuthZHeartBeatEndPoint?
    || a.AuthZSubscriptionEndPoint?
    || a.XcmsHostCollection? || a.XcmsHostSearch? || a.XcmsHostMetadata?
  }

  /** A path that names a host: `<section>.<name>.host` or `xcms.host.<name>`. */
  predicate IsHostPath(p: seq<string>)
    requires |p| == 3
  {
    p[2] == "host" || p[1] == "host"
  }

  /**
    Every lookup of WebServiceEndPoints. The path is checked first and a
    failure there throws the lookup's own error, whatever the flag says.
    A lookup without the gateway override returns the string found; one with
    it then reads the flag and, when the flag is true, returns the gateway.
   */
  function Resolve(t: WebServiceEndPoints, a: Api): (r: Result<string, EndPointsError>)
    ensures StringAt(t.endPoints, KeyPath(a)).None? ==> r == Failure(ErrorOf(a))
    ensures !GatewayOverride(a) ==>
      r == (match StringAt(t.endPoints, KeyPath(a))
            case Some(s) => Success(s)
            case None => Failure(ErrorOf(a)))
    ensures GatewayOverride(a) && StringAt(t.endPoints, KeyPath(a)).Some? ==>
      var flag := "useGlobalGatewayEndPoint";
      && (flag in t.endPoints && t.endPoints[flag] == JBool(false) ==>
            r == Success(StringAt(t.endPoints, KeyPath(a)).value))
      && (flag in t.endPoints && t.endPoints[flag] == JBool(true) ==>
            r == GlobalAPIGatewayEndPoint(t))
      && (!(flag in t.endPoints && t.endPoints[flag].JBool?) ==>
            r == Failure(EmptyOrCorruptUseGlobalGatewayEndPointFlag))
  {
    match StringAt(t.endPoints, KeyPath(a))
    case None => Failure(ErrorOf(a))
    case Some(point) =>
      if !GatewayOverride(a) then Success(point)
      else
        match UseGlobalGatewayEndPoint(t)
        case Failure(e) => Failure(e)
        case Success(flag) => if flag then GlobalAPIGatewayEndPoint(t) else Success(point)
  }

  /** Writing one top-level key leaves every walk that starts under another key unchanged. */
  lemma {:induction false} StringAtOtherKey(m: map<string, JValue>, k: string, v: JValue, path: seq<string>)
    requires |path| > 0 && path[0] != k
    ensures StringAt(m[k := v], path) == StringAt(m, path)
  {
  }

  /**
    The API-path lookups (and the user-profile host) never look at the flag or
    the globals: rewriting both leaves their outcome unchanged.
   */
  lemma PathLookupsIgnoreGatewaySettings(t: WebServiceEndPoints, a: Api, flag: JValue, globals: JValue)
    requires !GatewayOverride(a)
    ensures Resolve(WebServiceEndPoints(t.endPoints["useGlobalGatewayEndPoint" := flag]["globals" := globals]), a)
         == Resolve(t, a)
  {
    var m1 := t.endPoints["useGlobalGatewayEndPoint" := flag];
    StringAtOtherKey(t.endPoints, "useGlobalGatewayEndPoint", flag, KeyPath(a));
    StringAtOtherKey(m1, "globals", globals, KeyPath(a));
  }

  /**
    With the flag set to true, every overridable lookup whose own host is
    present returns the gateway, whatever that host says.
   */
  lemma GatewayReplacesEveryHost(t: WebServiceEndPoints, a: Api, gateway: string)
    requires GatewayOverride(a) && StringAt(t.endPoints, KeyPath(a)).Some?
    requires "useGlobalGatewayEndPoint" in t.endPoints && t.endPoints["useGlobalGatewayEndPoint"] == JBool(true)
    requires "globals" in t.endPoints && t.endPoints["globals"].JObj?
    requires "apiGateway" in t.endPoints["globals"].fields
    requires t.endPoints["globals"].fields["apiGateway"] == JStr(gateway)
    ensures Resolve(t, a) == Success(gateway)
  {
  }

  /**
    Every overridable lookup reads a host path, and the one host lookup that
    bypasses the gateway is the user-profile host.
   */
  lemma OnlyUserProfileHostBypassesGateway(a: Api)
    ensures GatewayOverride(a) ==> IsHostPath(KeyPath(a))
    ensures IsHostPath(KeyPath(a)) && !GatewayOverride(a) <==> a == XcmsUserProfileEndPoint
  {
    if !GatewayOverride(a) && a != XcmsUserProfileEndPoint {
      if a.XcmsAPIGenericItems? || a.XcmsAPIContinueWatching? || a.XcmsAPILiveStreamingChannels?
         || a.XcmsAPISearch? || a.XcmsAPILastLiveStreamingChannelWatched? || a.XcmsAPIProgramDetails?
         || a.XcmsAPIOnAirProgramByChannel? || a.XcmsAPIGuideChannels? || a.XcmsAPIPausePoint?
         || a.XcmsUserProfileAPI? || a.XcmsAPIGuideSchedule? {
        if a.XcmsAPIGenericItems? || a.XcmsAPIContinueWatching? || a.XcmsAPILiveStreamingChannels?
           || a.XcmsAPISearch? || a.XcmsAPILastLiveStreamingChannelWatched? {
          XcmsBrowseLookupsReadNoHost(a);
        } else {
          XcmsProgramLookupsReadNoHost(a);
        }
      } else {
        AuthApiLookupsReadNoHost(a);
      }
    }
  }

  // The three group lemmas below have no counterpart in the source: the
  // lookups are split into groups only to keep each proof within the
  // solver's budget.

  lemma XcmsBrowseLookupsReadNoHost(a: Api)
    requires || a.XcmsAPIGenericItems? || a.XcmsAPIContinueWatching? || a.XcmsAPILiveStreamingChannels?
             || a.XcmsAPISearch? || a.XcmsAPILastLiveStreamingChannelWatched?
    ensures !IsHostPath(KeyPath(a))
  {
  }

  lemma XcmsProgramLookupsReadNoHost(a: Api)
    requires || a.XcmsAPIProgramDetails? || a.XcmsAPIOnAirProgramByChannel? || a.XcmsAPIGuideChannels?
             || a.XcmsAPIPausePoint? || a.XcmsUserProfileAPI? || a.XcmsAPIGuideSchedule?
    ensures !IsHostPath(KeyPath(a))
  {
  }

  lemma AuthApiLookupsReadNoHost(a: Api)
    requires || a.AuthNTokenAPI? || a.AuthNRefreshAPI? || a.AuthNAccessAPI? || a.AuthNLogoutAPI?
             || a.AuthZHeartBeatAPI? || a.AuthZChannelAPI? || a.AuthZContentAPI? || a.AuthZSubscriptionAPI?
             || a.DeviceLookUpEndPoint?
    ensures !IsHostPath(KeyPath(a))
  {
  }

  /** The lookup that stands for each group of lookups sharing an error. */
  function Canonical(a: Api): Api
  {
    match a
    case XcmsUserProfileEndPoint => XcmsHostSearch
    case XcmsUserProfileAPI => XcmsHostSearch
    case XcmsAPIGuideSchedule => DeviceLookUpEndPoint
    case _ => a
  }

  /** The (canonical) lookup that throws an error, if any does: a left inverse of `ErrorOf`. */
  function LookupOfError(e: EndPointsError): Option<Api>
  {
    match e
    case EmptyOrCorruptGuidedChannelsAPI => Some(XcmsAPIGuideChannels)
    case EmptyOrCorruptProgramDetailsAPI => Some(XcmsAPIProgramDetails)
    case EmptyOrCorruptOnAirProgramByChannelAPI => Some(XcmsAPIOnAirProgramByChannel)
    case EmptyOrCorruptLastLiveStreamingChannelWatchedAPI => Some(XcmsAPILastLiveStreamingChannelWatched)
    case EmptyOrCorruptGenericItemsAPI => Some(XcmsAPIGenericItems)
    case EmptyOrCorruptContinueWatchingAPI => Some(XcmsAPIContinueWatching)
    case EmptyOrCorruptLiveStreamingChannelsAPI => Some(XcmsAPILiveStreamingChannels)
    case EmptyOrCorruptMetadataEndPoint => Some(XcmsHostMetadata)
    case EmptyOrCorruptMetadataAPI => None
    case EmptyOrCorruptSearchEndPoint => Some(XcmsHostSearch)
    case EmptyOrCorruptSearchAPI => Some(XcmsAPISearch)
    case EmptyOrCorruptCollectionEndPoint => Some(XcmsHostCollection)
    case EmptyOrCorruptCollectionAPI => None
    case EmptyOrCorruptGlobalAPIGatewayEndPoint => None
    case EmptyOrCorruptUseGlobalGatewayEndPointFlag => None
    case EmptyOrCorruptAuthNNewTokenEndPoint => Some(AuthNTokenEndPoint)
    case EmptyOrCorruptAuthNRefreshTokenEndPoint => Some(AuthNRefreshEndPoint)
    case EmptyOrCorruptAuthNAccessEndPoint => Some(AuthNAccessEndPoint)
    case EmptyOrCorruptAuthNLogoutEndPoint => Some(AuthNLogoutEndPoint)
    case EmptyOrCorruptAuthNNewTokenAPI => Some(AuthNTokenAPI)
    case EmptyOrCorruptAuthNRefreshTokenAPI => Some(AuthNRefreshAPI)
    case EmptyOrCorruptAuthNAccessAPI => Some(AuthNAccessAPI)
    case EmptyOrCorruptAuthNLogoutAPI => Some(AuthNLogoutAPI)
    case EmptyOrCorruptAuthZChannelEndpoint => Some(AuthZChannelEndPoint)
    case EmptyOrCorruptAuthZContentEndpoint => Some(AuthZContentEndPoint)
    case EmptyOrCorruptAuthZHeartBeatEndpoint => Some(AuthZHeartBeatEndPoint)
    case EmptyOrCorruptAuthZSubscriptionEndpoint => Some(AuthZSubscriptionEndPoint)
    case EmptyOrCorruptAuthZChannelAPI => Some(AuthZChannelAPI)
    case EmptyOrCorruptAuthZHeartBeatAPI => Some(AuthZHeartBeatAPI)
    case EmptyOrCorruptAuthZContentAPI => Some(AuthZContentAPI)
    case EmptyOrCorruptAuthZSubscriptionAPI => Some(AuthZSubscriptionAPI)
    case EmptyOrCorruptPausePointAPI => Some(XcmsAPIPausePoint)
    case EmptyOrCorruptDeviceManagementServiceAPI => Some(DeviceLookUpEndPoint)
  }

  /**
    The error gives the lookup back, up to the grouping of `Canonical`:
    `LookupOfError` is a left inverse of `ErrorOf` on canonical lookups.
   */
  lemma LookupOfErrorOf(a: Api)
    ensures LookupOfError(ErrorOf(a)) == Some(Canonical(a))
  {
  }

  /**
    The lookups throw distinct errors except for two reused ones: the search
    host error is also thrown by both user-profile lookups, and the device
    management error also by the guide-schedule lookup.
   */
  lemma SharedLookupErrors(a: Api, b: Api)
    requires a != b && ErrorOf(a) == ErrorOf(b)
    ensures || (a in {XcmsHostSearch, XcmsUserProfileEndPoint, XcmsUserProfileAPI}
                && b in {XcmsHostSearch, XcmsUserProfileEndPoint, XcmsUserProfileAPI})
            || (a in {DeviceLookUpEndPoint, XcmsAPIGuideSchedule}
                && b in {DeviceLookUpEndPoint, XcmsAPIGuideSchedule})
  {
    LookupOfErrorOf(a);
    LookupOfErrorOf(b);
  }

  /**
    No path lookup throws the gateway or flag errors, and the metadata-API
    and collection-API errors are declared but thrown by no lookup.
   */
  lemma ErrorsNoPathThrows(a: Api)
    ensures ErrorOf(a) !in {EmptyOrCorruptGlobalAPIGatewayEndPoint, EmptyOrCorruptUseGlobalGatewayEndPointFlag,
                            EmptyOrCorruptMetadataAPI, EmptyOrCorruptCollectionAPI}
  {
    LookupOfErrorOf(a);
  }
}
