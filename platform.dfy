/** One registered platform: its identity (URL, client id, key id) is fixed, its name,
    endpoints and authentication configuration live both in memory and in the store's
    `platform` record. Every setter writes the store first and only then the field, so a
    rejected write leaves the in-memory copy as it was. */
module Platforms {
  import opened Wrappers
  import opened Records
  import opened PlatformRules
  import opened Persistence
  import opened TokenGrant

  /** What `platformJSON` reports. There is no field for the private key. */
  datatype PlatformView = PlatformView(
    id: string,
    url: string,
    clientId: string,
    name: string,
    authenticationEndpoint: string,
    accesstokenEndpoint: string,
    authorizationServer: string,
    authConfig: AuthConfig,
    publicKey: string,
    active: bool)

  class Platform {
    var name: string
    const url: string
    const clientId: string
    var authEndpoint: string
    var authConfig: AuthConfig
    /** Passed to the store for encrypted collections; opaque here. */
    const encryptionKey: string
    var accesstokenEndpoint: string
    var authorizationServer: string
    const kid: string
    const db: Database

    constructor (name: string, url: string, clientId: string, authEndpoint: string,
                 accesstokenEndpoint: string, authorizationServer: string, kid: string,
                 encryptionKey: string, authConfig: AuthConfig, db: Database)
      ensures this.name == name && this.url == url && this.clientId == clientId
      ensures this.authEndpoint == authEndpoint && this.accesstokenEndpoint == accesstokenEndpoint
      ensures this.authorizationServer == authorizationServer && this.kid == kid
      ensures this.encryptionKey == encryptionKey && this.authConfig == authConfig && this.db == db
    {
      this.authConfig := authConfig;
      this.encryptionKey := encryptionKey;
      this.name := name;
      this.url := url;
      this.clientId := clientId;
      this.authEndpoint := authEndpoint;
      this.accesstokenEndpoint := accesstokenEndpoint;
      this.authorizationServer := authorizationServer;
      this.kid := kid;
      this.db := db;
    }

    /** The filter every write to the `platform` collection uses. */
    function Key(): PlatformKey {
      PlatformKey(url, clientId)
    }

    /** The in-memory fields, laid out as a store record. */
    ghost function View(): PlatformRecord
      reads this
    {
      PlatformRecord(name, url, clientId, authEndpoint, accesstokenEndpoint, authorizationServer, kid, authConfig)
    }

    /** The store holds this platform's record and it equals the in-memory fields. */
    ghost predicate InSync()
      reads this, db
    {
      Key() in db.platforms && db.platforms[Key()] == View()
    }

    /** Sets/gets the display name. */
    method PlatformName(arg: Option<string>) returns (r: Result<string, Error>)
      modifies this`name, db`platforms
      ensures !Given(arg) ==> r == Success(old(name)) && name == old(name) && db.platforms == old(db.platforms)
      ensures Given(arg) && PlatformColl in db.rejecting ==>
        r == Failure(StoreRejected(PlatformColl)) && name == old(name) && db.platforms == old(db.platforms)
      ensures Given(arg) && PlatformColl !in db.rejecting ==>
        r == Success(arg.value) && name == arg.value
        && db.platforms == ModifyOne(old(db.platforms), Key(), NamePatch(arg.value))
      ensures old(InSync()) ==> InSync()
    {
      if !Given(arg) {
        return Success(name);
      }
      var ok := db.ModifyPlatform(Key(), NamePatch(arg.value));
      if !ok {
        return Failure(StoreRejected(PlatformColl));
      }
      name := arg.value;
      r := Success(arg.value);
    }

    /** Sets/gets the authentication endpoint used for the OIDC login. */
    method PlatformAuthenticationEndpoint(arg: Option<string>) returns (r: Result<string, Error>)
      modifies this`authEndpoint, db`platforms
      ensures !Given(arg) ==> r == Success(old(authEndpoint)) && authEndpoint == old(authEndpoint) && db.platforms == old(db.platforms)
      ensures Given(arg) && PlatformColl in db.rejecting ==>
        r == Failure(StoreRejected(PlatformColl)) && authEndpoint == old(authEndpoint) && db.platforms == old(db.platforms)
      ensures Given(arg) && PlatformColl !in db.rejecting ==>
        r == Success(arg.value) && authEndpoint == arg.value
        && db.platforms == ModifyOne(old(db.platforms), Key(), AuthEndpointPatch(arg.value))
      ensures old(InSync()) ==> InSync()
    {
      if !Given(arg) {
        return Success(authEndpoint);
      }
      var ok := db.ModifyPlatform(Key(), AuthEndpointPatch(arg.value));
      if !ok {
        return Failure(StoreRejected(PlatformColl));
      }
      authEndpoint := arg.value;
      r := Success(arg.value);
    }

    /** Sets/gets the access-token endpoint. */
    method PlatformAccessTokenEndpoint(arg: Option<string>) returns (r: Result<string, Error>)
      modifies this`accesstokenEndpoint, db`platforms
      ensures !Given(arg) ==> r == Success(old(accesstokenEndpoint)) && accesstokenEndpoint == old(accesstokenEndpoint) && db.platforms == old(db.platforms)
      ensures Given(arg) && PlatformColl in db.rejecting ==>
        r == Failure(StoreRejected(PlatformColl)) && accesstokenEndpoint == old(accesstokenEndpoint) && db.platforms == old(db.platforms)
      ensures Given(arg) && PlatformColl !in db.rejecting ==>
        r == Success(arg.value) && accesstokenEndpoint == arg.value
        && db.platforms == ModifyOne(old(db.platforms), Key(), AccesstokenEndpointPatch(arg.value))
      ensures old(InSync()) ==> InSync()
    {
      if !Given(arg) {
        return Success(accesstokenEndpoint);
      }
      var ok := db.ModifyPlatform(Key(), AccesstokenEndpointPatch(arg.value));
      if !ok {
        return Failure(StoreRejected(PlatformColl));
      }
      accesstokenEndpoint := arg.value;
      r := Success(arg.value);
    }

    /** Sets/gets the authorization server; read back, it falls back to the access-token
        endpoint when unset. */
    method PlatformAuthorizationServer(arg: Option<string>) returns (r: Result<string, Error>)
      modifies this`authorizationServer, db`platforms
      ensures !Given(arg) ==>
        r == Success(EffectiveAuthorizationServer(old(authorizationServer), accesstokenEndpoint))
        && authorizationServer == old(authorizationServer) && db.platforms == old(db.platforms)
      ensures Given(arg) && PlatformColl in db.rejecting ==>
        r == Failure(StoreRejected(PlatformColl)) && authorizationServer == old(authorizationServer) && db.platforms == old(db.platforms)
      ensures Given(arg) && PlatformColl !in db.rejecting ==>
        r == Success(arg.value) && authorizationServer == arg.value
        && db.platforms == ModifyOne(old(db.platforms), Key(), AuthorizationServerPatch(arg.value))
      ensures old(InSync()) ==> InSync()
    {
      if !Given(arg) {
        return Success(EffectiveAuthorizationServer(authorizationServer, accesstokenEndpoint));
      }
      var ok := db.ModifyPlatform(Key(), AuthorizationServerPatch(arg.value));
      if !ok {
        return Failure(StoreRejected(PlatformColl));
      }
      authorizationServer := arg.value;
      r := Success(arg.value);
    }

    /** Sets/gets the configuration used to verify the platform's messages. With both
        arguments omitted it is a getter; an unknown method is refused before anything is
        written; otherwise the merged configuration is written, then kept. */
    method PlatformAuthConfig(a: AuthConfigArgs) returns (r: Result<AuthConfig, Error>)
      modifies this`authConfig, db`platforms
      ensures !Given(a.authMethod) && !Given(a.key) ==>
        r == Success(old(authConfig)) && authConfig == old(authConfig) && db.platforms == old(db.platforms)
      ensures Refused(a) ==>
        r == Failure(InvalidMethod) && authConfig == old(authConfig) && db.platforms == old(db.platforms)
      ensures (Given(a.authMethod) || Given(a.key)) && !Refused(a) ==>
        var merged := MergeAuthConfig(old(authConfig), a).value;
        if PlatformColl in db.rejecting then
          r == Failure(StoreRejected(PlatformColl)) && authConfig == old(authConfig) && db.platforms == old(db.platforms)
        else
          r == Success(merged) && authConfig == merged
          && db.platforms == ModifyOne(old(db.platforms), Key(), AuthConfigPatch(merged))
      ensures r.Success? ==> authConfig == AfterAuthConfigCall(old(authConfig), a)
      ensures old(InSync()) ==> InSync()
    {
      if !Given(a.authMethod) && !Given(a.key) {
        return Success(authConfig);
      }
      var merged := MergeAuthConfig(authConfig, a);
      if merged.Failure? {
        return merged;
      }
      var ok := db.ModifyPlatform(Key(), AuthConfigPatch(merged.value));
      if !ok {
        return Failure(StoreRejected(PlatformColl));
      }
      authConfig := merged.value;
      r := merged;
    }

    /** The stored status of this platform, active when there is no record. */
    method Status() returns (active: bool)
      ensures active == StatusIn(db.statuses, kid)
    {
      var rec := db.GetStatus(kid);
      active := rec.None? || rec.value.active;
    }

    /** Sets/gets the platform status; setting replaces the whole status record. */
    method PlatformActive(arg: Option<bool>) returns (r: Result<bool, Error>)
      modifies db`statuses
      ensures arg.None? ==> r == Success(StatusIn(db.statuses, kid)) && db.statuses == old(db.statuses)
      ensures arg.Some? && StatusColl in db.rejecting ==>
        r == Failure(StoreRejected(StatusColl)) && db.statuses == old(db.statuses)
      ensures arg.Some? && StatusColl !in db.rejecting ==>
        r == Success(arg.value) && db.statuses == old(db.statuses)[kid := StatusRecord(kid, arg.value)]
        && StatusIn(db.statuses, kid) == arg.value
    {
      if arg.None? {
        var active := Status();
        return Success(active);
      }
      var ok := db.ReplaceStatus(kid, StatusRecord(kid, arg.value));
      if !ok {
        return Failure(StoreRejected(StatusColl));
      }
      StatusReadsBackWrite(old(db.statuses), kid, kid, arg.value);
      r := Success(arg.value);
    }

    /** The public key stored for this platform's key id. */
    method PlatformPublicKey() returns (r: Result<string, Error>)
      ensures r.Success? <==> kid in db.publicKeys
      ensures r.Success? ==> r.value == db.publicKeys[kid]
      ensures r.Failure? ==> r.error == KeyNotFound
    {
      var key := db.GetPublicKey(kid);
      r := if key.Some? then Success(key.value) else Failure(KeyNotFound);
    }

    /** The private key stored for this platform's key id. */
    method PlatformPrivateKey() returns (r: Result<string, Error>)
      ensures r.Success? <==> kid in db.privateKeys
      ensures r.Success? ==> r.value == db.privateKeys[kid]
      ensures r.Failure? ==> r.error == KeyNotFound
    {
      var key := db.GetPrivateKey(kid);
      r := if key.Some? then Success(key.value) else Failure(KeyNotFound);
    }

    /** The token cache key for a scope string. */
    function TokenKeyFor(scopes: string): TokenKey {
      TokenKey(url, clientId, scopes)
    }

    /** The cache is keyed by the scope string itself, not by the set of scopes it names:
        two scope strings share a cache entry only when they are equal, so the same scopes
        written in another order are looked up, and acquired, separately. */
    lemma ScopeStringsAreExactKeys(a: string, b: string)
      ensures TokenKeyFor(a) == TokenKeyFor(b) <==> a == b
      ensures TokenKeyFor("a b") != TokenKeyFor("b a")
    {
      assert "a b"[0] != "b a"[0];
    }

    /** Returns a usable access token for `scopes` at time `now` (milliseconds): the cached
        one while it is not stale, without asking the authority, and otherwise exactly one
        fresh acquisition. Either way the token type is capitalised. */
    method PlatformAccessToken(scopes: string, now: int, authority: TokenAuthority) returns (r: Result<Token, Error>)
      modifies authority`requests
      ensures var key := TokenKeyFor(scopes);
        var entry := if key in db.accessTokens then Some(db.accessTokens[key]) else None;
        if Reusable(entry, now) then
          authority.requests == old(authority.requests) && r == Success(Normalized(entry.value.token))
        else
          authority.requests == old(authority.requests) + [key]
          && r == (if authority.grant(key).Some? then Success(Normalized(authority.grant(key).value))
                   else Failure(TokenAcquisitionError))
      ensures r.Success? ==> Capitalize(r.value.tokenType) == r.value.tokenType
    {
      var key := TokenKeyFor(scopes);
      var entry := db.GetAccessToken(key);
      var token: Token;
      if !Reusable(entry, now) {
        var acquired := authority.GetAccessToken(key);
        if acquired.None? {
          return Failure(TokenAcquisitionError);
        }
        token := acquired.value;
      } else {
        token := entry.value.token;
      }
      token := Normalized(token);
      CapitalizeIdempotent(token.tokenType);
      r := Success(token);
    }

    /** The public projection of the platform. It fails like `platformPublicKey` when no
        public key is stored, and reports the same authorization server and status as the
        corresponding getters. */
    method PlatformJSON() returns (r: Result<PlatformView, Error>)
      ensures r.Success? <==> kid in db.publicKeys
      ensures r.Failure? ==> r.error == KeyNotFound
      ensures r.Success? ==> r.value == PlatformView(
        kid, url, clientId, name, authEndpoint, accesstokenEndpoint,
        EffectiveAuthorizationServer(authorizationServer, accesstokenEndpoint),
        authConfig, db.publicKeys[kid], StatusIn(db.statuses, kid))
    {
      var publicKey := PlatformPublicKey();
      if publicKey.Failure? {
        return Failure(publicKey.error);
      }
      var active := Status();
      r := Success(PlatformView(
        kid, url, clientId, name, authEndpoint, accesstokenEndpoint,
        EffectiveAuthorizationServer(authorizationServer, accesstokenEndpoint),
        authConfig, publicKey.value, active));
    }

    /** Removes the platform record, its status and both key halves, in that order. The
        removals are not transactional: the first rejected one stops the call, and what was
        removed before it stays removed. Other platforms' records are untouched. */
    method Delete() returns (r: Result<bool, Error>)
      modifies db`platforms, db`statuses, db`publicKeys, db`privateKeys
      ensures var platformGone := PlatformColl !in db.rejecting;
        var statusGone := platformGone && StatusColl !in db.rejecting;
        var publicKeyGone := statusGone && PublicKeyColl !in db.rejecting;
        var privateKeyGone := publicKeyGone && PrivateKeyColl !in db.rejecting;
        && db.platforms == (if platformGone then old(db.platforms) - {Key()} else old(db.platforms))
        && db.statuses == (if statusGone then old(db.statuses) - {kid} else old(db.statuses))
        && db.publicKeys == (if publicKeyGone then old(db.publicKeys) - {kid} else old(db.publicKeys))
        && db.privateKeys == (if privateKeyGone then old(db.privateKeys) - {kid} else old(db.privateKeys))
        && r == (if privateKeyGone then Success(true)
                 else if !platformGone then Failure(StoreRejected(PlatformColl))
                 else if !statusGone then Failure(StoreRejected(StatusColl))
                 else if !publicKeyGone then Failure(StoreRejected(PublicKeyColl))
                 else Failure(StoreRejected(PrivateKeyColl)))
      ensures r == Success(true) ==>
        Key() !in db.platforms && kid !in db.statuses && kid !in db.publicKeys && kid !in db.privateKeys
    {
      var ok := db.DeletePlatform(Key());
      if !ok {
        return Failure(StoreRejected(PlatformColl));
      }
      ok := db.DeleteStatus(kid);
      if !ok {
        return Failure(StoreRejected(StatusColl));
      }
      ok := db.DeletePublicKey(kid);
      if !ok {
        return Failure(StoreRejected(PublicKeyColl));
      }
      ok := db.DeletePrivateKey(kid);
      if !ok {
        return Failure(StoreRejected(PrivateKeyColl));
      }
      r := Success(true);
    }
  }
}
