/** The records the platform subsystem keeps in its persistent store, one datatype per
    collection, and the partial updates the platform applies to its identity record. */
module Records {
  import opened Wrappers

  /** How messages signed by the platform are verified: a method name and its key material
      (an RSA public key, a JWK, or a JWK set address). */
  datatype AuthConfig = AuthConfig(authMethod: string, key: string)

  /** The natural key of a platform: its URL together with the client id it issued. */
  datatype PlatformKey = PlatformKey(platformUrl: string, clientId: string)

  /** A document of the `platform` collection. An empty string stands for an unset field. */
  datatype PlatformRecord = PlatformRecord(
    platformName: string,
    platformUrl: string,
    clientId: string,
    authEndpoint: string,
    accesstokenEndpoint: string,
    authorizationServer: string,
    kid: string,
    authConfig: AuthConfig)

  /** A document of the `platformStatus` collection. */
  datatype StatusRecord = StatusRecord(id: string, active: bool)

  /** An access token as the token endpoint returns it; `expiresIn` is its lifetime in
      seconds, `None` when the answer carries no `expires_in`. */
  datatype Token = Token(accessToken: string, tokenType: string, expiresIn: Option<int>, scope: string)

  /** The key of the `accesstoken` collection: the platform and the exact scope string. */
  datatype TokenKey = TokenKey(platformUrl: string, clientId: string, scopes: string)

  /** A document of the `accesstoken` collection; `createdAt` is in milliseconds. */
  datatype CachedToken = CachedToken(token: Token, createdAt: int)

  /** The collections the platform reads and writes. */
  datatype Collection = PlatformColl | StatusColl | PublicKeyColl | PrivateKeyColl | AccessTokenColl

  /** A partial update of a platform record: exactly one field is overwritten. */
  datatype Patch =
    | NamePatch(platformName: string)
    | AuthEndpointPatch(authEndpoint: string)
    | AccesstokenEndpointPatch(accesstokenEndpoint: string)
    | AuthorizationServerPatch(authorizationServer: string)
    | AuthConfigPatch(authConfig: AuthConfig)

  /** The record after a patch. A patch never touches the identity of the record. */
  function ApplyPatch(r: PlatformRecord, p: Patch): (r': PlatformRecord)
    ensures r'.platformUrl == r.platformUrl && r'.clientId == r.clientId && r'.kid == r.kid
    ensures p.NamePatch? ==> r'.platformName == p.platformName && r'.(platformName := r.platformName) == r
    ensures p.AuthEndpointPatch? ==> r'.authEndpoint == p.authEndpoint && r'.(authEndpoint := r.authEndpoint) == r
    ensures p.AccesstokenEndpointPatch? ==>
      r'.accesstokenEndpoint == p.accesstokenEndpoint && r'.(accesstokenEndpoint := r.accesstokenEndpoint) == r
    ensures p.AuthorizationServerPatch? ==>
      r'.authorizationServer == p.authorizationServer && r'.(authorizationServer := r.authorizationServer) == r
    ensures p.AuthConfigPatch? ==> r'.authConfig == p.authConfig && r'.(authConfig := r.authConfig) == r
  {
    match p
    case NamePatch(n) => r.(platformName := n)
    case AuthEndpointPatch(e) => r.(authEndpoint := e)
    case AccesstokenEndpointPatch(e) => r.(accesstokenEndpoint := e)
    case AuthorizationServerPatch(s) => r.(authorizationServer := s)
    case AuthConfigPatch(c) => r.(authConfig := c)
  }

  /** A partial update of the one record matching `key`, without upsert: when no record
      matches, the collection is unchanged. */
  function ModifyOne(m: map<PlatformKey, PlatformRecord>, key: PlatformKey, p: Patch): (m': map<PlatformKey, PlatformRecord>)
    ensures m'.Keys == m.Keys
    ensures key in m ==> m'[key] == ApplyPatch(m[key], p)
    ensures forall k :: k in m && k != key ==> m'[k] == m[k]
  {
    if key in m then m[key := ApplyPatch(m[key], p)] else m
  }
}
