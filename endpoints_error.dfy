/**
  The closed set of errors an endpoint lookup can throw, and the fixed
  human-readable description of each (WebServiceEndPointsError.swift).
  No case carries associated data.
 */
module EndPointsErrors {
  import opened Wrappers

  datatype EndPointsError =
    | EmptyOrCorruptGuidedChannelsAPI
    | EmptyOrCorruptProgramDetailsAPI
    | EmptyOrCorruptOnAirProgramByChannelAPI
    | EmptyOrCorruptLastLiveStreamingChannelWatchedAPI
    | EmptyOrCorruptGenericItemsAPI
    | EmptyOrCorruptContinueWatchingAPI
    | EmptyOrCorruptLiveStreamingChannelsAPI
    | EmptyOrCorruptMetadataEndPoint
    | EmptyOrCorruptMetadataAPI
    | EmptyOrCorruptSearchEndPoint
    | EmptyOrCorruptSearchAPI
    | EmptyOrCorruptCollectionEndPoint
    | EmptyOrCorruptCollectionAPI
    | EmptyOrCorruptGlobalAPIGatewayEndPoint
    | EmptyOrCorruptUseGlobalGatewayEndPointFlag
    | EmptyOrCorruptAuthNNewTokenEndPoint
    | EmptyOrCorruptAuthNRefreshTokenEndPoint
    | EmptyOrCorruptAuthNAccessEndPoint
    | EmptyOrCorruptAuthNLogoutEndPoint
    | EmptyOrCorruptAuthNNewTokenAPI
    | EmptyOrCorruptAuthNRefreshTokenAPI
    | EmptyOrCorruptAuthNAccessAPI
    | EmptyOrCorruptAuthNLogoutAPI
    | EmptyOrCorruptAuthZChannelEndpoint
    | EmptyOrCorruptAuthZContentEndpoint
    | EmptyOrCorruptAuthZHeartBeatEndpoint
    | EmptyOrCorruptAuthZSubscriptionEndpoint
    | EmptyOrCorruptAuthZChannelAPI
    | EmptyOrCorruptAuthZHeartBeatAPI
    | EmptyOrCorruptAuthZContentAPI
    | EmptyOrCorruptAuthZSubscriptionAPI
    | EmptyOrCorruptPausePointAPI
    | EmptyOrCorruptDeviceManagementServiceAPI

  /** Every case, in declaration order. */
  const AllErrors: seq<EndPointsError> := [
    EmptyOrCorruptGuidedChannelsAPI, EmptyOrCorruptProgramDetailsAPI,
    EmptyOrCorruptOnAirProgramByChannelAPI, EmptyOrCorruptLastLiveStreamingChannelWatchedAPI,
    EmptyOrCorruptGenericItemsAPI, EmptyOrCorruptContinueWatchingAPI,
    EmptyOrCorruptLiveStreamingChannelsAPI, EmptyOrCorruptMetadataEndPoint,
    EmptyOrCorruptMetadataAPI, EmptyOrCorruptSearchEndPoint, EmptyOrCorruptSearchAPI,
    EmptyOrCorruptCollectionEndPoint, EmptyOrCorruptCollectionAPI,
    EmptyOrCorruptGlobalAPIGatewayEndPoint, EmptyOrCorruptUseGlobalGatewayEndPointFlag,
    EmptyOrCorruptAuthNNewTokenEndPoint, EmptyOrCorruptAuthNRefreshTokenEndPoint,
    EmptyOrCorruptAuthNAccessEndPoint, EmptyOrCorruptAuthNLogoutEndPoint,
    EmptyOrCorruptAuthNNewTokenAPI, EmptyOrCorruptAuthNRefreshTokenAPI,
    EmptyOrCorruptAuthNAccessAPI, EmptyOrCorruptAuthNLogoutAPI,
    EmptyOrCorruptAuthZChannelEndpoint, EmptyOrCorruptAuthZContentEndpoint,
    EmptyOrCorruptAuthZHeartBeatEndpoint, EmptyOrCorruptAuthZSubscriptionEndpoint,
    EmptyOrCorruptAuthZChannelAPI, EmptyOrCorruptAuthZHeartBeatAPI,
    EmptyOrCorruptAuthZContentAPI, EmptyOrCorruptAuthZSubscriptionAPI,
    EmptyOrCorruptPausePointAPI, EmptyOrCorruptDeviceManagementServiceAPI
  ]

  /** The `description` of each case, typos and punctuation as in the source. */
  function Description(e: EndPointsError): string
  {
    match e
    case EmptyOrCorruptSearchAPI => "Empty or Corrupt Search API or JSON in App Config"
    case EmptyOrCorruptLiveStreamingChannelsAPI => "Empty or Corrupt LiveStreamingChannels API or JSON in App Config"
    case EmptyOrCorruptContinueWatchingAPI => "Empty or Corrupt ContinueWatching API or JSON in App Config"
    case EmptyOrCorruptGuidedChannelsAPI => "Empty or Corrupt GuidedChannels API or JSON in App Config"
    case EmptyOrCorruptProgramDetailsAPI => "Empty or Corrupt ProgramDetails API or JSON in App Config"
    case EmptyOrCorruptOnAirProgramByChannelAPI => "Empty or Corrupt On Air Program By Channel API or JSON in App Config"
    case EmptyOrCorruptLastLiveStreamingChannelWatchedAPI => "Empty or Corrupt LastLiveStreamingChannelWatched API or JSON in App Config"
    case EmptyOrCorruptGenericItemsAPI => "Empty or Corrupt GenericItems API or JSON in AppConfig"
    case EmptyOrCorruptMetadataEndPoint => "Empty or Corrupt Metadata Endpoint or JSON in AppConfig"
    case EmptyOrCorruptMetadataAPI => "Empty or Corrupt Metadata API or JSON in AppConfig"
    case EmptyOrCorruptSearchEndPoint => "Empty or Corrupt Search Endpoint or JSON in AppConfig"
    case EmptyOrCorruptCollectionEndPoint => "Empty or Corrupt Collection Endpoint or JSON in AppConfig"
    case EmptyOrCorruptCollectionAPI => "Empty or Corrupt Collection API or JSON in AppConfig"
    case EmptyOrCorruptGlobalAPIGatewayEndPoint => "Empty or Corrupt Globals API Gateway EndPoint JSON."
    case EmptyOrCorruptUseGlobalGatewayEndPointFlag => "Empty or Corrupt useGlobalGatewayEndPoint flag in JSON."
    case EmptyOrCorruptAuthNNewTokenEndPoint => "Empty or Corrupt AuthNToken EndPoint JSON."
    case EmptyOrCorruptAuthNRefreshTokenEndPoint => "Empty or Corrupt AuthNRefreshToken EndPoint JSON."
    case EmptyOrCorruptAuthNAccessEndPoint => "Empty or Corrupt AuthNAccess EndPoint JSON."
    case EmptyOrCorruptAuthNLogoutEndPoint => "Empty or Corrupt AuthNLogout EndPoint JSON."
    case EmptyOrCorruptAuthNNewTokenAPI => "Empty or Corrupt AuthNToken API JSON."
    case EmptyOrCorruptAuthNRefreshTokenAPI => "Empty or Corrupt AuthNRefreshToken API JSON."
    case EmptyOrCorruptAuthNAccessAPI => "Empty or Corrupt AuthNAccess API JSON."
    case EmptyOrCorruptAuthNLogoutAPI => "Empty or Corrupt AuthNLogout API JSON."
    case EmptyOrCorruptAuthZChannelEndpoint => "Empty or Corrupt AuthZChannel EndPoint JSON"
    case EmptyOrCorruptAuthZHeartBeatEndpoint => "Empty or Corrupt AuthZHearBeat EndPoint JSON"
    case EmptyOrCorruptAuthZContentEndpoint => "Empty or Corrupt AuthZContent EndPoint JSON"
    case EmptyOrCorruptAuthZSubscriptionEndpoint => "Empty or Corrupt AuthZSubscription EndPoint JSON"
    case EmptyOrCorruptAuthZChannelAPI => "Empty or Corrupt AuthZChannel API JSON"
    case EmptyOrCorruptAuthZContentAPI => "Empty or Corrupt AuthZContent API JSON"
    case EmptyOrCorruptAuthZHeartBeatAPI => "Empty or Corrupt AuthZHearBeat API JSON"
    case EmptyOrCorruptAuthZSubscriptionAPI => "Empty or Corrup AuthZSubscriptiobn API JSON"
    case EmptyOrCorruptPausePointAPI => "Empty or Corrupt PausePointUpdate API JSON."
    case EmptyOrCorruptDeviceManagementServiceAPI => "Empty or Corrupt Device Management Service API JSON."
  }

  /** The position of each case in the declaration. */
  function Ordinal(e: EndPointsError): (k: nat)
    ensures k < |AllErrors| && AllErrors[k] == e
  {
    match e
    case EmptyOrCorruptGuidedChannelsAPI => 0
    case EmptyOrCorruptProgramDetailsAPI => 1
    case EmptyOrCorruptOnAirProgramByChannelAPI => 2
    case EmptyOrCorruptLastLiveStreamingChannelWatchedAPI => 3
    case EmptyOrCorruptGenericItemsAPI => 4
    case EmptyOrCorruptContinueWatchingAPI => 5
    case EmptyOrCorruptLiveStreamingChannelsAPI => 6
    case EmptyOrCorruptMetadataEndPoint => 7
    case EmptyOrCorruptMetadataAPI => 8
    case EmptyOrCorruptSearchEndPoint => 9
    case EmptyOrCorruptSearchAPI => 10
    case EmptyOrCorruptCollectionEndPoint => 11
    case EmptyOrCorruptCollectionAPI => 12
    case EmptyOrCorruptGlobalAPIGatewayEndPoint => 13
    case EmptyOrCorruptUseGlobalGatewayEndPointFlag => 14
    case EmptyOrCorruptAuthNNewTokenEndPoint => 15
    case EmptyOrCorruptAuthNRefreshTokenEndPoint => 16
    case EmptyOrCorruptAuthNAccessEndPoint => 17
    case EmptyOrCorruptAuthNLogoutEndPoint => 18
    case EmptyOrCorruptAuthNNewTokenAPI => 19
    case EmptyOrCorruptAuthNRefreshTokenAPI => 20
    case EmptyOrCorruptAuthNAccessAPI => 21
    case EmptyOrCorruptAuthNLogoutAPI => 22
    case EmptyOrCorruptAuthZChannelEndpoint => 23
    case EmptyOrCorruptAuthZContentEndpoint => 24
    case EmptyOrCorruptAuthZHeartBeatEndpoint => 25
    case EmptyOrCorruptAuthZSubscriptionEndpoint => 26
    case EmptyOrCorruptAuthZChannelAPI => 27
    case EmptyOrCorruptAuthZHeartBeatAPI => 28
    case EmptyOrCorruptAuthZContentAPI => 29
    case EmptyOrCorruptAuthZSubscriptionAPI => 30
    case EmptyOrCorruptPausePointAPI => 31
    case EmptyOrCorruptDeviceManagementServiceAPI => 32
  }

  /** The enumeration has exactly 33 cases. */
  lemma AllErrorsComplete(e: EndPointsError)
    ensures e in AllErrors
    ensures |AllErrors| == 33
  {
    var k := Ordinal(e);
  }

  // The fingerprint functions and the per-case lemmas below have no
  // counterpart in the source: they exist only so that proving the 33
  // descriptions distinct costs the solver a linear, not quadratic, effort.

  /**
    A cheap fingerprint of a description: its length and, for the lengths
    that several descriptions share, one character counted from the end that
    tells them apart. The 33 descriptions have 33 different fingerprints,
    which is how the proofs below tell the descriptions apart without
    comparing them whole.
   */
  function Fingerprint(d: string): (int, char)
  {
    var n := |d|;
    if n == 38 then (n, d[n - 11])
    else if n == 43 then (n, d[n - 16])
    else if n == 57 then (n, d[n - 29])
    else if n == 44 || n == 49 || n == 52 || n == 55 then (n, d[n - 1])
    else (n, ' ')
  }

  /** The fingerprint of each case's description, written out. */
  function DescriptionFingerprint(e: EndPointsError): (int, char)
  {
    match e
    case EmptyOrCorruptGuidedChannelsAPI => (57, 'e')
    case EmptyOrCorruptProgramDetailsAPI => (57, 'i')
    case EmptyOrCorruptOnAirProgramByChannelAPI => (68, ' ')
    case EmptyOrCorruptLastLiveStreamingChannelWatchedAPI => (74, ' ')
    case EmptyOrCorruptGenericItemsAPI => (54, ' ')
    case EmptyOrCorruptContinueWatchingAPI => (59, ' ')
    case EmptyOrCorruptLiveStreamingChannelsAPI => (64, ' ')
    case EmptyOrCorruptMetadataEndPoint => (55, 'g')
    case EmptyOrCorruptMetadataAPI => (50, ' ')
    case EmptyOrCorruptSearchEndPoint => (53, ' ')
    case EmptyOrCorruptSearchAPI => (49, 'g')
    case EmptyOrCorruptCollectionEndPoint => (57, 'E')
    case EmptyOrCorruptCollectionAPI => (52, 'g')
    case EmptyOrCorruptGlobalAPIGatewayEndPoint => (51, ' ')
    case EmptyOrCorruptUseGlobalGatewayEndPointFlag => (55, '.')
    case EmptyOrCorruptAuthNNewTokenEndPoint => (42, ' ')
    case EmptyOrCorruptAuthNRefreshTokenEndPoint => (49, '.')
    case EmptyOrCorruptAuthNAccessEndPoint => (43, 's')
    case EmptyOrCorruptAuthNLogoutEndPoint => (43, 't')
    case EmptyOrCorruptAuthNNewTokenAPI => (37, ' ')
    case EmptyOrCorruptAuthNRefreshTokenAPI => (44, '.')
    case EmptyOrCorruptAuthNAccessAPI => (38, 's')
    case EmptyOrCorruptAuthNLogoutAPI => (38, 't')
    case EmptyOrCorruptAuthZChannelEndpoint => (43, 'e')
    case EmptyOrCorruptAuthZContentEndpoint => (43, 'n')
    case EmptyOrCorruptAuthZHeartBeatEndpoint => (44, 'N')
    case EmptyOrCorruptAuthZSubscriptionEndpoint => (48, ' ')
    case EmptyOrCorruptAuthZChannelAPI => (38, 'e')
    case EmptyOrCorruptAuthZHeartBeatAPI => (39, ' ')
    case EmptyOrCorruptAuthZContentAPI => (38, 'n')
    case EmptyOrCorruptAuthZSubscriptionAPI => (43, 'i')
    case EmptyOrCorruptPausePointAPI => (43, 'U')
    case EmptyOrCorruptDeviceManagementServiceAPI => (52, '.')
  }

  lemma FingerprintOfDescription(e: EndPointsError)
    ensures Fingerprint(Description(e)) == DescriptionFingerprint(e)
  {
    match e
    case EmptyOrCorruptGuidedChannelsAPI => FingerprintOfGuidedChannelsAPI();
    case EmptyOrCorruptProgramDetailsAPI => FingerprintOfProgramDetailsAPI();
    case EmptyOrCorruptOnAirProgramByChannelAPI => FingerprintOfOnAirProgramByChannelAPI();
    case EmptyOrCorruptLastLiveStreamingChannelWatchedAPI => FingerprintOfLastLiveStreamingChannelWatchedAPI();
    case EmptyOrCorruptGenericItemsAPI => FingerprintOfGenericItemsAPI();
    case EmptyOrCorruptContinueWatchingAPI => FingerprintOfContinueWatchingAPI();
    case EmptyOrCorruptLiveStreamingChannelsAPI => FingerprintOfLiveStreamingChannelsAPI();
    case EmptyOrCorruptMetadataEndPoint => FingerprintOfMetadataEndPoint();
    case EmptyOrCorruptMetadataAPI => FingerprintOfMetadataAPI();
    case EmptyOrCorruptSearchEndPoint => FingerprintOfSearchEndPoint();
    case EmptyOrCorruptSearchAPI => FingerprintOfSearchAPI();
    case EmptyOrCorruptCollectionEndPoint => FingerprintOfCollectionEndPoint();
    case EmptyOrCorruptCollectionAPI => FingerprintOfCollectionAPI();
    case EmptyOrCorruptGlobalAPIGatewayEndPoint => FingerprintOfGlobalAPIGatewayEndPoint();
    case EmptyOrCorruptUseGlobalGatewayEndPointFlag => FingerprintOfUseGlobalGatewayEndPointFlag();
    case EmptyOrCorruptAuthNNewTokenEndPoint => FingerprintOfAuthNNewTokenEndPoint();
    case EmptyOrCorruptAuthNRefreshTokenEndPoint => FingerprintOfAuthNRefreshTokenEndPoint();
    case EmptyOrCorruptAuthNAccessEndPoint => FingerprintOfAuthNAccessEndPoint();
    case EmptyOrCorruptAuthNLogoutEndPoint => FingerprintOfAuthNLogoutEndPoint();
    case EmptyOrCorruptAuthNNewTokenAPI => FingerprintOfAuthNNewTokenAPI();
    case EmptyOrCorruptAuthNRefreshTokenAPI => FingerprintOfAuthNRefreshTokenAPI();
    case EmptyOrCorruptAuthNAccessAPI => FingerprintOfAuthNAccessAPI();
    case EmptyOrCorruptAuthNLogoutAPI => FingerprintOfAuthNLogoutAPI();
    case EmptyOrCorruptAuthZChannelEndpoint => FingerprintOfAuthZChannelEndpoint();
    case EmptyOrCorruptAuthZContentEndpoint => FingerprintOfAuthZContentEndpoint();
    case EmptyOrCorruptAuthZHeartBeatEndpoint => FingerprintOfAuthZHeartBeatEndpoint();
    case EmptyOrCorruptAuthZSubscriptionEndpoint => FingerprintOfAuthZSubscriptionEndpoint();
    case EmptyOrCorruptAuthZChannelAPI => FingerprintOfAuthZChannelAPI();
    case EmptyOrCorruptAuthZHeartBeatAPI => FingerprintOfAuthZHeartBeatAPI();
    case EmptyOrCorruptAuthZContentAPI => FingerprintOfAuthZContentAPI();
    case EmptyOrCorruptAuthZSubscriptionAPI => FingerprintOfAuthZSubscriptionAPI();
    case EmptyOrCorruptPausePointAPI => FingerprintOfPausePointAPI();
    case EmptyOrCorruptDeviceManagementServiceAPI => FingerprintOfDeviceManagementServiceAPI();
  }

  lemma FingerprintOfGuidedChannelsAPI()
    ensures Fingerprint(Description(EmptyOrCorruptGuidedChannelsAPI)) == DescriptionFingerprint(EmptyOrCorruptGuidedChannelsAPI)
  {
  }

  lemma FingerprintOfProgramDetailsAPI()
    ensures Fingerprint(Description(EmptyOrCorruptProgramDetailsAPI)) == DescriptionFingerprint(EmptyOrCorruptProgramDetailsAPI)
  {
  }

  lemma FingerprintOfOnAirProgramByChannelAPI()
    ensures Fingerprint(Description(EmptyOrCorruptOnAirProgramByChannelAPI)) == DescriptionFingerprint(EmptyOrCorruptOnAirProgramByChannelAPI)
  {
  }

  lemma FingerprintOfLastLiveStreamingChannelWatchedAPI()
    ensures Fingerprint(Description(EmptyOrCorruptLastLiveStreamingChannelWatchedAPI)) == DescriptionFingerprint(EmptyOrCorruptLastLiveStreamingChannelWatchedAPI)
  {
  }

  lemma FingerprintOfGenericItemsAPI()
    ensures Fingerprint(Description(EmptyOrCorruptGenericItemsAPI)) == DescriptionFingerprint(EmptyOrCorruptGenericItemsAPI)
  {
  }

  lemma FingerprintOfContinueWatchingAPI()
    ensures Fingerprint(Description(EmptyOrCorruptContinueWatchingAPI)) == DescriptionFingerprint(EmptyOrCorruptContinueWatchingAPI)
  {
  }

  lemma FingerprintOfLiveStreamingChannelsAPI()
    ensures Fingerprint(Description(EmptyOrCorruptLiveStreamingChannelsAPI)) == DescriptionFingerprint(EmptyOrCorruptLiveStreamingChannelsAPI)
  {
  }

  lemma FingerprintOfMetadataEndPoint()
    ensures Fingerprint(Description(EmptyOrCorruptMetadataEndPoint)) == DescriptionFingerprint(EmptyOrCorruptMetadataEndPoint)
  {
  }

  lemma FingerprintOfMetadataAPI()
    ensures Fingerprint(Description(EmptyOrCorruptMetadataAPI)) == DescriptionFingerprint(EmptyOrCorruptMetadataAPI)
  {
  }

  lemma FingerprintOfSearchEndPoint()
    ensures Fingerprint(Description(EmptyOrCorruptSearchEndPoint)) == DescriptionFingerprint(EmptyOrCorruptSearchEndPoint)
  {
  }

  lemma FingerprintOfSearchAPI()
    ensures Fingerprint(Description(EmptyOrCorruptSearchAPI)) == DescriptionFingerprint(EmptyOrCorruptSearchAPI)
  {
  }

  lemma FingerprintOfCollectionEndPoint()
    ensures Fingerprint(Description(EmptyOrCorruptCollectionEndPoint)) == DescriptionFingerprint(EmptyOrCorruptCollectionEndPoint)
  {
  }

  lemma FingerprintOfCollectionAPI()
    ensures Fingerprint(Description(EmptyOrCorruptCollectionAPI)) == DescriptionFingerprint(EmptyOrCorruptCollectionAPI)
  {
  }

  lemma FingerprintOfGlobalAPIGatewayEndPoint()
    ensures Fingerprint(Description(EmptyOrCorruptGlobalAPIGatewayEndPoint)) == DescriptionFingerprint(EmptyOrCorruptGlobalAPIGatewayEndPoint)
  {
  }

  lemma FingerprintOfUseGlobalGatewayEndPointFlag()
    ensures Fingerprint(Description(EmptyOrCorruptUseGlobalGatewayEndPointFlag)) == DescriptionFingerprint(EmptyOrCorruptUseGlobalGatewayEndPointFlag)
  {
  }

  lemma FingerprintOfAuthNNewTokenEndPoint()
    ensures Fingerprint(Description(EmptyOrCorruptAuthNNewTokenEndPoint)) == DescriptionFingerprint(EmptyOrCorruptAuthNNewTokenEndPoint)
  {
  }

  lemma FingerprintOfAuthNRefreshTokenEndPoint()
    ensures Fingerprint(Description(EmptyOrCorruptAuthNRefreshTokenEndPoint)) == DescriptionFingerprint(EmptyOrCorruptAuthNRefreshTokenEndPoint)
  {
  }

  lemma FingerprintOfAuthNAccessEndPoint()
    ensures Fingerprint(Description(EmptyOrCorruptAuthNAccessEndPoint)) == DescriptionFingerprint(EmptyOrCorruptAuthNAccessEndPoint)
  {
  }

  lemma FingerprintOfAuthNLogoutEndPoint()
    ensures Fingerprint(Description(EmptyOrCorruptAuthNLogoutEndPoint)) == DescriptionFingerprint(EmptyOrCorruptAuthNLogoutEndPoint)
  {
  }

  lemma FingerprintOfAuthNNewTokenAPI()
    ensures Fingerprint(Description(EmptyOrCorruptAuthNNewTokenAPI)) == DescriptionFingerprint(EmptyOrCorruptAuthNNewTokenAPI)
  {
  }

  lemma FingerprintOfAuthNRefreshTokenAPI()
    ensures Fingerprint(Description(EmptyOrCorruptAuthNRefreshTokenAPI)) == DescriptionFingerprint(EmptyOrCorruptAuthNRefreshTokenAPI)
  {
  }

  lemma FingerprintOfAuthNAccessAPI()
    ensures Fingerprint(Description(EmptyOrCorruptAuthNAccessAPI)) == DescriptionFingerprint(EmptyOrCorruptAuthNAccessAPI)
  {
  }

  lemma FingerprintOfAuthNLogoutAPI()
    ensures Fingerprint(Description(EmptyOrCorruptAuthNLogoutAPI)) == DescriptionFingerprint(EmptyOrCorruptAuthNLogoutAPI)
  {
  }

  lemma FingerprintOfAuthZChannelEndpoint()
    ensures Fingerprint(Description(EmptyOrCorruptAuthZChannelEndpoint)) == DescriptionFingerprint(EmptyOrCorruptAuthZChannelEndpoint)
  {
  }

  lemma FingerprintOfAuthZContentEndpoint()
    ensures Fingerprint(Description(EmptyOrCorruptAuthZContentEndpoint)) == DescriptionFingerprint(EmptyOrCorruptAuthZContentEndpoint)
  {
  }

  lemma FingerprintOfAuthZHeartBeatEndpoint()
    ensures Fingerprint(Description(EmptyOrCorruptAuthZHeartBeatEndpoint)) == DescriptionFingerprint(EmptyOrCorruptAuthZHeartBeatEndpoint)
  {
  }

  lemma FingerprintOfAuthZSubscriptionEndpoint()
    ensures Fingerprint(Description(EmptyOrCorruptAuthZSubscriptionEndpoint)) == DescriptionFingerprint(EmptyOrCorruptAuthZSubscriptionEndpoint)
  {
  }

  lemma FingerprintOfAuthZChannelAPI()
    ensures Fingerprint(Description(EmptyOrCorruptAuthZChannelAPI)) == DescriptionFingerprint(EmptyOrCorruptAuthZChannelAPI)
  {
  }

  lemma FingerprintOfAuthZHeartBeatAPI()
    ensures Fingerprint(Description(EmptyOrCorruptAuthZHeartBeatAPI)) == DescriptionFingerprint(EmptyOrCorruptAuthZHeartBeatAPI)
  {
  }

  lemma FingerprintOfAuthZContentAPI()
    ensures Fingerprint(Description(EmptyOrCorruptAuthZContentAPI)) == DescriptionFingerprint(EmptyOrCorruptAuthZContentAPI)
  {
  }

  lemma FingerprintOfAuthZSubscriptionAPI()
    ensures Fingerprint(Description(EmptyOrCorruptAuthZSubscriptionAPI)) == DescriptionFingerprint(EmptyOrCorruptAuthZSubscriptionAPI)
  {
  }

  lemma FingerprintOfPausePointAPI()
    ensures Fingerprint(Description(EmptyOrCorruptPausePointAPI)) == DescriptionFingerprint(EmptyOrCorruptPausePointAPI)
  {
  }

  lemma FingerprintOfDeviceManagementServiceAPI()
    ensures Fingerprint(Description(EmptyOrCorruptDeviceManagementServiceAPI)) == DescriptionFingerprint(EmptyOrCorruptDeviceManagementServiceAPI)
  {
  }

  /** The case a fingerprint belongs to, if any: the inverse of `DescriptionFingerprint`. */
  function CaseOfFingerprint(f: (int, char)): Option<EndPointsError>
  {
    if f == (57, 'e') then Some(EmptyOrCorruptGuidedChannelsAPI)
    else if f == (57, 'i') then Some(EmptyOrCorruptProgramDetailsAPI)
    else if f == (68, ' ') then Some(EmptyOrCorruptOnAirProgramByChannelAPI)
    else if f == (74, ' ') then Some(EmptyOrCorruptLastLiveStreamingChannelWatchedAPI)
    else if f == (54, ' ') then Some(EmptyOrCorruptGenericItemsAPI)
    else if f == (59, ' ') then Some(EmptyOrCorruptContinueWatchingAPI)
    else if f == (64, ' ') then Some(EmptyOrCorruptLiveStreamingChannelsAPI)
    else if f == (55, 'g') then Some(EmptyOrCorruptMetadataEndPoint)
    else if f == (50, ' ') then Some(EmptyOrCorruptMetadataAPI)
    else if f == (53, ' ') then Some(EmptyOrCorruptSearchEndPoint)
    else if f == (49, 'g') then Some(EmptyOrCorruptSearchAPI)
    else if f == (57, 'E') then Some(EmptyOrCorruptCollectionEndPoint)
    else if f == (52, 'g') then Some(EmptyOrCorruptCollectionAPI)
    else if f == (51, ' ') then Some(EmptyOrCorruptGlobalAPIGatewayEndPoint)
    else if f == (55, '.') then Some(EmptyOrCorruptUseGlobalGatewayEndPointFlag)
    else if f == (42, ' ') then Some(EmptyOrCorruptAuthNNewTokenEndPoint)
    else if f == (49, '.') then Some(EmptyOrCorruptAuthNRefreshTokenEndPoint)
    else if f == (43, 's') then Some(EmptyOrCorruptAuthNAccessEndPoint)
    else if f == (43, 't') then Some(EmptyOrCorruptAuthNLogoutEndPoint)
    else if f == (37, ' ') then Some(EmptyOrCorruptAuthNNewTokenAPI)
    else if f == (44, '.') then Some(EmptyOrCorruptAuthNRefreshTokenAPI)
    else if f == (38, 's') then Some(EmptyOrCorruptAuthNAccessAPI)
    else if f == (38, 't') then Some(EmptyOrCorruptAuthNLogoutAPI)
    else if f == (43, 'e') then Some(EmptyOrCorruptAuthZChannelEndpoint)
    else if f == (43, 'n') then Some(EmptyOrCorruptAuthZContentEndpoint)
    else if f == (44, 'N') then Some(EmptyOrCorruptAuthZHeartBeatEndpoint)
    else if f == (48, ' ') then Some(EmptyOrCorruptAuthZSubscriptionEndpoint)
    else if f == (38, 'e') then Some(EmptyOrCorruptAuthZChannelAPI)
    else if f == (39, ' ') then Some(EmptyOrCorruptAuthZHeartBeatAPI)
    else if f == (38, 'n') then Some(EmptyOrCorruptAuthZContentAPI)
    else if f == (43, 'i') then Some(EmptyOrCorruptAuthZSubscriptionAPI)
    else if f == (43, 'U') then Some(EmptyOrCorruptPausePointAPI)
    else if f == (52, '.') then Some(EmptyOrCorruptDeviceManagementServiceAPI)
    else None
  }

  lemma CaseOfDescriptionFingerprint(e: EndPointsError)
    ensures CaseOfFingerprint(DescriptionFingerprint(e)) == Some(e)
  {
  }

  lemma DescriptionFingerprintInjective(a: EndPointsError, b: EndPointsError)
    requires DescriptionFingerprint(a) == DescriptionFingerprint(b)
    ensures a == b
  {
    CaseOfDescriptionFingerprint(a);
    CaseOfDescriptionFingerprint(b);
  }

  /** No two cases share a description: a description identifies its case. */
  lemma DescriptionInjective(a: EndPointsError, b: EndPointsError)
    requires Description(a) == Description(b)
    ensures a == b
  {
    FingerprintOfDescription(a);
    FingerprintOfDescription(b);
    DescriptionFingerprintInjective(a, b);
  }

  /** The gateway error describes itself exactly so. */
  lemma GatewayErrorDescription()
    ensures Description(EmptyOrCorruptGlobalAPIGatewayEndPoint)
            == "Empty or Corrupt Globals API Gateway EndPoint JSON."
  {
  }

  /** The flag error describes itself exactly so. */
  lemma FlagErrorDescription()
    ensures Description(EmptyOrCorruptUseGlobalGatewayEndPointFlag)
            == "Empty or Corrupt useGlobalGatewayEndPoint flag in JSON."
  {
  }

  /** The subscription-API error keeps the source's typos. */
  lemma SubscriptionAPIErrorDescription()
    ensures Description(EmptyOrCorruptAuthZSubscriptionAPI)
            == "Empty or Corrup AuthZSubscriptiobn API JSON"
  {
  }
}
