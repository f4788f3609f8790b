/** The persistence collaborator the platform sits on, reduced to what the platform uses:
    one map per collection, keyed the way the platform filters it. The store can reject a
    write (the source's awaited call then throws); `rejecting` names the collections whose
    writes are rejected, fixed for the store's lifetime. A rejected write changes nothing.
    Reads always succeed, and encryption at rest is not modelled: the maps hold plain
    values. */
module Persistence {
  import opened Wrappers
  import opened Records

  class Database {
    var platforms: map<PlatformKey, PlatformRecord>
    var statuses: map<string, StatusRecord>
    var publicKeys: map<string, string>
    var privateKeys: map<string, string>
    var accessTokens: map<TokenKey, CachedToken>
    const rejecting: set<Collection>

    constructor (platforms: map<PlatformKey, PlatformRecord>, statuses: map<string, StatusRecord>,
                 publicKeys: map<string, string>, privateKeys: map<string, string>,
                 accessTokens: map<TokenKey, CachedToken>, rejecting: set<Collection>)
      ensures this.platforms == platforms && this.statuses == statuses
      ensures this.publicKeys == publicKeys && this.privateKeys == privateKeys
      ensures this.accessTokens == accessTokens && this.rejecting == rejecting
    {
      this.platforms := platforms;
      this.statuses := statuses;
      this.publicKeys := publicKeys;
      this.privateKeys := privateKeys;
      this.accessTokens := accessTokens;
      this.rejecting := rejecting;
    }

    /** `Get(false, 'platformStatus', { id })`: the status record, or nothing. */
    method GetStatus(id: string) returns (r: Option<StatusRecord>)
      ensures r.Some? <==> id in statuses
      ensures r.Some? ==> r.value == statuses[id]
    {
      r := if id in statuses then Some(statuses[id]) else None;
    }

    /** `Get(key, 'publickey', { kid })`: the public key stored for `kid`, or nothing. */
    method GetPublicKey(kid: string) returns (r: Option<string>)
      ensures r.Some? <==> kid in publicKeys
      ensures r.Some? ==> r.value == publicKeys[kid]
    {
      r := if kid in publicKeys then Some(publicKeys[kid]) else None;
    }

    /** `Get(key, 'privatekey', { kid })`: the private key stored for `kid`, or nothing. */
    method GetPrivateKey(kid: string) returns (r: Option<string>)
      ensures r.Some? <==> kid in privateKeys
      ensures r.Some? ==> r.value == privateKeys[kid]
    {
      r := if kid in privateKeys then Some(privateKeys[kid]) else None;
    }

    /** `Get(key, 'accesstoken', { platformUrl, clientId, scopes })`: exact-match lookup. */
    method GetAccessToken(key: TokenKey) returns (r: Option<CachedToken>)
      ensures r.Some? <==> key in accessTokens
      ensures r.Some? ==> r.value == accessTokens[key]
    {
      r := if key in accessTokens then Some(accessTokens[key]) else None;
    }

    /** `Modify(false, 'platform', { platformUrl, clientId }, patch)`: a partial update of
        the matching record, if any. */
    method ModifyPlatform(key: PlatformKey, p: Patch) returns (ok: bool)
      modifies this`platforms
      ensures ok <==> PlatformColl !in rejecting
      ensures platforms == if ok then ModifyOne(old(platforms), key, p) else old(platforms)
    {
      ok := PlatformColl !in rejecting;
      if ok {
        platforms := ModifyOne(platforms, key, p);
      }
    }

    /** `Replace(false, 'platformStatus', { id }, record)`: an upsert of the whole record. */
    method ReplaceStatus(id: string, rec: StatusRecord) returns (ok: bool)
      modifies this`statuses
      ensures ok <==> StatusColl !in rejecting
      ensures statuses == if ok then old(statuses)[id := rec] else old(statuses)
    {
      ok := StatusColl !in rejecting;
      if ok {
        statuses := statuses[id := rec];
      }
    }

    /** `Delete('platform', { platformUrl, clientId })`. */
    method DeletePlatform(key: PlatformKey) returns (ok: bool)
      modifies this`platforms
      ensures ok <==> PlatformColl !in rejecting
      ensures platforms == if ok then old(platforms) - {key} else old(platforms)
    {
      ok := PlatformColl !in rejecting;
      if ok {
        platforms := platforms - {key};
      }
    }

    /** `Delete('platformStatus', { id })`. */
    method DeleteStatus(id: string) returns (ok: bool)
      modifies this`statuses
      ensures ok <==> StatusColl !in rejecting
      ensures statuses == if ok then old(statuses) - {id} else old(statuses)
    {
      ok := StatusColl !in rejecting;
      if ok {
        statuses := statuses - {id};
      }
    }

    /** `Delete('publickey', { kid })`. */
    method DeletePublicKey(kid: string) returns (ok: bool)
      modifies this`publicKeys
      ensures ok <==> PublicKeyColl !in rejecting
      ensures publicKeys == if ok then old(publicKeys) - {kid} else old(publicKeys)
    {
      ok := PublicKeyColl !in rejecting;
      if ok {
        publicKeys := publicKeys - {kid};
      }
    }

    /** `Delete('privatekey', { kid })`. */
    method DeletePrivateKey(kid: string) returns (ok: bool)
      modifies this`privateKeys
      ensures ok <==> PrivateKeyColl !in rejecting
      ensures privateKeys == if ok then old(privateKeys) - {kid} else old(privateKeys)
    {
      ok := PrivateKeyColl !in rejecting;
      if ok {
        privateKeys := privateKeys - {kid};
      }
    }
  }
}
